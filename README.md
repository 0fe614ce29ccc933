# django-cms plugin base, modelled in Dafny

This project models `cms/plugin_base.py` of django-cms. That file defines the
base class every CMS plugin type extends, in two parts:

- **Class preparation.** `CMSPluginBaseMetaclass.__new__` runs once when a plugin
  type is defined. The root type `CMSPluginBase` passes through untouched. Every
  other type must have a model that extends `CMSPlugin` (otherwise
  `SubClassNeededError`) and a `render_template` attribute (otherwise
  `ImproperlyConfigured`). It then gets defaults when it has none of its own:
  - a form bound to its model that excludes the four structural fields;
  - fieldsets that split the editable, not auto-created model fields into a basic
    group and an "Advanced options" group;
  - a display name made from the class name by putting a space at each
    lower-to-upper case change.
- **Per-request instance.** A `CMSPluginBase` object holds request state
  (`object_successfully_changed`, the wrapped plugin row, placeholder, page,
  saved object). Its operations are: render into a context, three identical
  permission checks, copy the row's fields onto the saved object, default the
  "continue editing" redirect, list allowed child plugin types, and look up
  whether an action requires a reload.

Modules:

- `Wrappers` (`wrappers.dfy`): `Option` and `Result`.
- `ModelMeta` (`model_meta.dfy`): what the code reads of a model's `_meta`. A
  model has a resolution order; `issubclass(m, CMSPlugin)` is "`CMSPlugin` occurs
  in it". Each field records `auto_created`, `editable` and whether it *has* an
  `advanced` attribute.
- `DisplayName` (`display_name.dfy`): the regular-expression substitution.
  `SubCamel` follows the engine's left-to-right, non-overlapping scan.
  `SpaceCamel` is the reference meaning: "one space at every lower-to-upper
  adjacency". The two are proved equal.
- `Fieldsets` (`fieldsets.dfy`): the partition loop (`PartitionFields`, an
  imperative loop proved against the filter `GroupNames`) and the default
  fieldsets.
- `PluginMetaclass` (`plugin_metaclass.dfy`): the class record `PluginClass`.
  `Prepare` is the specification of `__new__`; `New` is the step-by-step hook
  proved equal to it. `Subclass` models attribute lookup through a plugin base.
  `DefineChain` defines a chain of subclasses below a type.
- `PluginBase` (`plugin_base.dfy`): the class `CMSPluginBase` with its fields and
  methods. The saved object and the template context are objects updated in
  place. Keyword-argument dictionaries are values, because `**kwargs` builds a
  fresh dictionary on each call.

Two behaviours of the code are proved explicitly:

- **The template check never fails.** It tests only that `render_template` is
  present (cms/plugin_base.py:43), and the root type defines
  `render_template = None` (cms/plugin_base.py:99). So below `CMSPluginBase` the
  check can never fail, and a type that never sets a template still validates,
  with template `None` (`TemplateCheckNeverFails`, `BaseSubclassesValidate`).
  The model follows the code: it requires presence, not a non-`None` value.
- **Defaults are inherited, not recomputed.** A subclass that leaves its form,
  fieldsets or name to its base keeps the base's already-defaulted value
  (`InheritedDefaultsKept`). This holds even when the subclass declares a
  different model: the inherited form stays bound to the base's model. The
  inherited display name also stays the base's, not one derived from the
  subclass's name.

Inputs that come from outside are parameters: the registry lookup
`plugin_pool.get_all_plugins` and the permission delegate
`cms_plugin_instance.has_change_permission`. The `CMSPlugin` model's field list
is a parameter too. The action constants of `cms.constants` are taken as
`"move"` and `"copy"`; cms/constants.py is not part of this model, and only the
fact that the two differ is used.

## Model

| member | source | states |
|---|---|---|
| `ModelMeta.CMSPluginModel` | cms/plugin_base.py:104 | the base model `CMSPlugin` passes the `issubclass(model, CMSPlugin)` test |
| `DisplayName.SubCamelIsSpaceCamel` | cms/plugin_base.py:84 | the regex scan `([a-z])([A-Z])` → `\1 \2` equals inserting exactly one space at every ASCII lower→upper adjacency |
| `DisplayName.SpaceCamelUnchanged` | cms/plugin_base.py:84 | a class name with no lower→upper adjacency is returned unchanged |
| `DisplayName.SpaceCamelLeavesNoBoundary` | cms/plugin_base.py:84 | the derived name contains no lower→upper adjacency |
| `DisplayName.SpaceCamelIdempotent` | cms/plugin_base.py:84 | deriving the name twice equals deriving it once |
| `DisplayName.SpaceCamelOnlyInsertsSpaces` | cms/plugin_base.py:84 | with spaces removed, the derived name spells the class name (only spaces are inserted) |
| `DisplayName.SpaceCamelLength` | cms/plugin_base.py:84 | the derived name is longer than the class name by exactly the number of adjacencies |
| `DisplayName.MyPluginName` | cms/plugin_base.py:84 | "MyPlugin" becomes "My Plugin" |
| `DisplayName.CapitalsNameUnchanged` | cms/plugin_base.py:84 | "HTMLPlugin" is left alone (no lower→upper adjacency) |
| `DisplayName.SubCamel` | cms/plugin_base.py:84 | the substitution never shortens the class name |
| `Fieldsets.PartitionFields` | cms/plugin_base.py:59-65 | the loop collects, in model order, the names of the non-auto-created editable fields, advanced-marked ones in the advanced list and the rest in the basic list |
| `Fieldsets.GroupMembership` | cms/plugin_base.py:61-65 | a name is in a group iff some eligible field of that group (by presence of the `advanced` marker) has that name |
| `Fieldsets.PartitionInterleaves` | cms/plugin_base.py:59-65 | basic and advanced lists together are exactly the eligible field names: the eligible names in model order are an interleaving of the two |
| `Fieldsets.InterleavingIsPermutation` | cms/plugin_base.py:59-65 | an interleaving is a permutation of the two lists together, so no eligible field is lost or duplicated |
| `Fieldsets.DefaultFieldsetsShape` | cms/plugin_base.py:66-81 | default fieldsets exist iff some eligible field is advanced, and are then exactly `(None, basic)` and `('Advanced options', advanced, classes=('collapse',))` |
| `Fieldsets.DefaultFieldsets` | cms/plugin_base.py:66-81 | no fieldsets when the advanced list is empty; otherwise two groups: an untitled one with the basic names and no classes, then 'Advanced options' with the advanced names and classes `('collapse',)` |
| `PluginMetaclass.Prepare` | cms/plugin_base.py:28-85 | the root type is returned as is; otherwise a non-`CMSPlugin` model gives `SubClassNeededError` before any other check; an absent template gives `ImproperlyConfigured`; success iff both checks pass; only form, fieldsets and name change |
| `PluginMetaclass.New` | cms/plugin_base.py:28-85 | the step-by-step hook (checks, then in-place default assignment with the partition loop) returns exactly what `Prepare` specifies |
| `PluginMetaclass.FormDefaulting` | cms/plugin_base.py:47-56 | a form is synthesised only when there is none; it is named `<Class>Form`, bound to the plugin's model and excludes exactly position, placeholder, language, plugin_type; an existing form is kept |
| `PluginMetaclass.DefaultForm` | cms/plugin_base.py:48-56 | the synthesised form is named `<Class>Form`, is bound to the plugin's model and excludes exactly position, placeholder, language and plugin_type |
| `PluginMetaclass.FieldsetDefaulting` | cms/plugin_base.py:57-81 | declared fieldsets are kept; otherwise they become the two default groups iff an eligible advanced field exists, and stay unchanged if not |
| `PluginMetaclass.NameDefaulting` | cms/plugin_base.py:82-84 | a non-empty name is kept; an empty one becomes the class name with a space at every lower→upper adjacency, leaving none |
| `PluginMetaclass.PrepareIdempotent` | cms/plugin_base.py:28-85 | preparing an already prepared type changes nothing |
| `PluginMetaclass.Subclass` | cms/plugin_base.py:34 | a created subclass has a plugin parent and inherits the base's `render_template` attribute unless its body sets one |
| `PluginMetaclass.BaseClass` | cms/plugin_base.py:89-104 | the root type has no plugin parent, model `CMSPlugin` and `render_template` present with value `None` |
| `PluginMetaclass.BaseClassUntouched` | cms/plugin_base.py:30-33 | the root type passes through the metaclass with no validation or defaulting |
| `PluginMetaclass.TemplateCheckNeverFails` | cms/plugin_base.py:42-46 | below a type that has the attribute, no chain of subclass definitions ever raises `ImproperlyConfigured` |
| `PluginMetaclass.ChainValidation` | cms/plugin_base.py:35-41 | below a valid type, a chain of definitions succeeds iff every declared model extends `CMSPlugin`, and otherwise fails with `SubClassNeededError` |
| `PluginMetaclass.BaseSubclassesValidate` | cms/plugin_base.py:99 | subclasses of `CMSPluginBase` that never set a template validate, and their template is `None` |
| `PluginMetaclass.InheritedDefaultsKept` | cms/plugin_base.py:48-84 | a subclass that leaves form, fieldsets or name to its base keeps the base's defaulted value, whatever model it declares |
| `PluginBase.SetDefault` | cms/plugin_base.py:204 | `setdefault` adds the key with the default only when absent, keeps an existing value and leaves every other key alone |
| `PluginBase.SetDefaultIdempotent` | cms/plugin_base.py:204 | a second `setdefault` of the same key changes nothing |
| `PluginBase.CopyFieldsEffect` | cms/plugin_base.py:179-184 | after the copy every listed field holds the row's value, every other attribute keeps its old value, and no other attribute appears |
| `PluginBase.CopyFields` | cms/plugin_base.py:179-184 | the copy keeps every attribute the object had and gives it every listed field |
| `PluginBase.CMSPluginBase.constructor` | cms/plugin_base.py:124-133 | a new instance has `object_successfully_changed` false and no plugin row, placeholder, page or saved object |
| `PluginBase.CMSPluginBase.Render` | cms/plugin_base.py:136-139 | the same context comes back with `instance` and `placeholder` set and every other entry unchanged |
| `PluginBase.CMSPluginBase.HasAddPermission` | cms/plugin_base.py:158-165 | the answer is the bound row's change permission for the request; with no row bound the access raises |
| `PluginBase.CMSPluginBase.PermissionsAgree` | cms/plugin_base.py:166 | add, change and delete permission are the same function |
| `PluginBase.CMSPluginBase.HasChangePermission` | cms/plugin_base.py:166 | the same answer as `has_add_permission`; it raises exactly when no row is bound |
| `PluginBase.CMSPluginBase.HasDeletePermission` | cms/plugin_base.py:166 | the same answer as `has_add_permission`; it raises exactly when no row is bound |
| `PluginBase.CMSPluginBase.SaveModel` | cms/plugin_base.py:168-189 | with a row bound, `obj` gets the row's fields copied in order, otherwise it is unchanged; the saved object is `obj` in both cases |
| `PluginBase.CMSPluginBase.ResponseChange` | cms/plugin_base.py:191-205 | sets the changed flag and passes on the keyword arguments with `continue_editing_url` defaulted to the plugin edit view |
| `PluginBase.CMSPluginBase.ResponseAdd` | cms/plugin_base.py:207-221 | the same as `ResponseChange`, on adding an object |
| `PluginBase.CMSPluginBase.IconAlt` | cms/plugin_base.py:241-247 | the alt text is the display name, then " - ", then the instance's text |
| `PluginBase.CMSPluginBase.IconSrc` | cms/plugin_base.py:232-239 | the icon URL is the empty string |
| `PluginBase.CMSPluginBase.GetChildClasses` | cms/plugin_base.py:249-255 | declared child classes when the list is non-empty, otherwise the class names of the registry's plugins for the slot and page, in order |
| `PluginBase.CMSPluginBase.RequiresReload` | cms/plugin_base.py:260-266 | true iff the action is a key of the options and its entry maps `requires_reload` to true |
| `PluginBase.CMSPluginBase.GetActionOptions` | cms/plugin_base.py:257-258 | the options are the class's `action_options` |
| `PluginBase.DefaultReloads` | cms/plugin_base.py:114-121 | under the default options move and copy require a reload and any other action does not; a missing action or a missing `requires_reload` key gives false |
| `PluginBase.DefaultActionOptions` | cms/plugin_base.py:114-121 | the default options have exactly the move and copy actions, and each maps `requires_reload` to true |

## Left out

- The Django-version flags `DJANGO_1_3` / `DJANGO_1_4` and the Django 1.3 branch of `response_change` / `response_add`. That branch builds `post_url_continue` with `reverse()`, which needs URL resolution. Only the other branch is modelled.
- `render_change_form`: it reads the request's GET parameters and a settings value, and then calls the admin.
- The `super()` calls into `ModelAdmin`, in `__init__`, `save_model`, `response_*` and `render_change_form`. So are the `admin_site` argument of `__init__` and the `MediaDefiningClass` hook.
- `ModelForm` construction: a synthesised form is only its descriptor (name, bound model, exclude list).
- The `parent` property: it reads an attribute of the wrapped row, and the row's model is not part of this model.
- The no-op `log_addition`, `log_change` and `log_deletion` hooks.
- `pluginmedia` and `get_plugin_media`: they always raise `Deprecated` and hold no logic.
- `__repr__`, `__str__`, `ugettext_lazy`, `force_unicode` and `smart_str`: text-encoding wrappers. `IconAlt` takes the instance's text as a parameter. `IconSrc` returns the empty string.
- `plugin_pool.get_all_plugins` and `cms_plugin_instance.has_change_permission` are foreign calls. Each is a function parameter.
- PluginMetaclass.Subclass: a class statement has exactly one plugin-type base. Lookup through several bases (Python's full method resolution order) is not modelled.
- PluginMetaclass.Prepare: a `model` that is not a class, where `issubclass` raises `TypeError`, is not modelled.
- PluginMetaclass.New: the code assigns `form`, `fieldsets` and `name` in place on the class object it just created. The model updates a local record instead. No other reference to the new class exists yet, so no aliasing is lost.
- PluginBase.CMSPluginBase.RequiresReload: option values are booleans. Python returns whatever value is stored under `requires_reload`, truthy or not.
- PluginBase.CMSPluginBase.SaveModel: requires the row to have an attribute for each of its model's fields. A Django model instance always does.
- `placeholder`, `page` and `cms_plugin_instance` are assigned by the edit view, which is outside this file. They are public fields that no modelled method changes.
