/**
  * The per-request side of a plugin type: an instance of `CMSPluginBase`
  * that the edit view fills in and that the admin calls to render, check
  * permissions, save and respond.
  */
module PluginBase {
  import opened Wrappers
  import opened ModelMeta
  import PluginMetaclass

  /** Action identifiers of `cms.constants`. */
  const PLUGIN_MOVE_ACTION: string := "move"
  const PLUGIN_COPY_ACTION: string := "copy"
  /** The option key that `requires_reload` reads. */
  const REQUIRES_RELOAD: string := "requires_reload"
  /** The keyword argument that `response_change` and `response_add` default, and its value. */
  const CONTINUE_EDITING_URL: string := "continue_editing_url"
  const EDIT_PLUGIN_URL_NAME: string := "admin:cms_page_edit_plugin"
  /** The context keys that `render` sets. */
  const INSTANCE_KEY: string := "instance"
  const PLACEHOLDER_KEY: string := "placeholder"

  /** An attribute value of a model object or an entry of a template context. */
  datatype Value = NoneValue | IntValue(i: int) | StrValue(s: string) | RefValue(id: nat)

  /** A page region and a page, as the edit view hands them over. */
  datatype Placeholder = Placeholder(slot: string)
  datatype Page = Page(id: nat)
  /** An HTTP request, used only as the argument of the permission delegate. */
  datatype Request = Request(id: nat)

  /** Raised by an attribute access on `None`. */
  datatype AttributeError = AttributeError(attribute: string)

  /** The wrapped `CMSPlugin` row: its model (whose `_meta.fields` `save_model` copies) and its attribute values. */
  datatype PluginRow = PluginRow(model: ModelClass, attrs: map<string, Value>) {
    /** A model instance has an attribute for each of its fields. */
    predicate HasFieldAttributes() {
      forall i :: 0 <= i < |model.fields| ==> model.fields[i].name in attrs
    }
  }

  /** A model object whose attributes are assigned in place. */
  class ModelObject {
    var attrs: map<string, Value>
  }

  /** A template context, updated in place. */
  class Context {
    var items: map<string, Value>
  }

  /** The default `action_options`: moving and copying a plugin reload the page. */
  function DefaultActionOptions(): (r: map<string, map<string, bool>>)
    ensures r.Keys == {PLUGIN_MOVE_ACTION, PLUGIN_COPY_ACTION}
    ensures forall a :: a in r ==> r[a] == map[REQUIRES_RELOAD := true]
  {
    map[PLUGIN_MOVE_ACTION := map[REQUIRES_RELOAD := true],
        PLUGIN_COPY_ACTION := map[REQUIRES_RELOAD := true]]
  }

  /** `options.get(key, False)` for the entry of `action`, and `False` when there is no entry. */
  predicate ReloadRequired(options: map<string, map<string, bool>>, action: string) {
    action in options && REQUIRES_RELOAD in options[action] && options[action][REQUIRES_RELOAD]
  }

  /** `dict.setdefault` on a copy: the key keeps its value if it has one, else gets `default`. */
  function SetDefault(m: map<string, Value>, key: string, default: Value): (r: map<string, Value>)
    ensures r.Keys == m.Keys + {key}
    ensures key in m ==> r[key] == m[key]
    ensures key !in m ==> r[key] == default
    ensures forall k :: k in m && k != key ==> r[k] == m[k]
  {
    if key in m then m else m[key := default]
  }

  /** `setdefault` twice with the same key is `setdefault` once. */
  lemma SetDefaultIdempotent(m: map<string, Value>, key: string, default: Value, other: Value)
    ensures SetDefault(SetDefault(m, key, default), key, other) == SetDefault(m, key, default)
  {
  }

  /** The attributes of an object after `setattr(obj, f, values[f])` for each name `f` of `fields`, in order. */
  function CopyFields(attrs: map<string, Value>, fields: seq<ModelField>, values: map<string, Value>): (r: map<string, Value>)
    requires forall i :: 0 <= i < |fields| ==> fields[i].name in values
    ensures attrs.Keys <= r.Keys
    ensures forall i :: 0 <= i < |fields| ==> fields[i].name in r
    decreases |fields|
  {
    if |fields| == 0 then attrs
    else CopyFields(attrs[fields[0].name := values[fields[0].name]], fields[1..], values)
  }

  /**
    * After the copy every listed field holds the row's value, and every other
    * attribute keeps its old value.
    */
  lemma {:induction false} CopyFieldsEffect(attrs: map<string, Value>, fields: seq<ModelField>, values: map<string, Value>)
    requires forall i :: 0 <= i < |fields| ==> fields[i].name in values
    ensures var r := CopyFields(attrs, fields, values);
      && (forall i :: 0 <= i < |fields| ==> fields[i].name in r && r[fields[i].name] == values[fields[i].name])
      && (forall k :: k in attrs && (forall i :: 0 <= i < |fields| ==> fields[i].name != k) ==> k in r && r[k] == attrs[k])
      && (forall k :: k in r ==> k in attrs || exists i :: 0 <= i < |fields| && fields[i].name == k)
    decreases |fields|
  {
    if |fields| > 0 {
      var next := attrs[fields[0].name := values[fields[0].name]];
      var rest := fields[1..];
      assert forall i :: 0 <= i < |rest| ==> rest[i] == fields[i + 1];
      CopyFieldsEffect(next, rest, values);
      var r := CopyFields(attrs, fields, values);
      assert r == CopyFields(next, rest, values);
      forall i | 0 <= i < |fields|
        ensures fields[i].name in r && r[fields[i].name] == values[fields[i].name]
      {
        if i > 0 {
          assert rest[i - 1] == fields[i];
        } else if exists j :: 0 <= j < |rest| && rest[j].name == fields[0].name {
          var j :| 0 <= j < |rest| && rest[j].name == fields[0].name;
          assert rest[j].name in r && r[rest[j].name] == values[rest[j].name];
        }
      }
      forall k | k in r
        ensures k in attrs || exists i :: 0 <= i < |fields| && fields[i].name == k
      {
        if k !in attrs && k != fields[0].name {
          var j :| 0 <= j < |rest| && rest[j].name == k;
          assert fields[j + 1].name == k;
        }
      }
    }
  }

  /** One instance of a plugin type, for one editing request. */
  class CMSPluginBase {
    /** Class attributes of the plugin type this instance belongs to. */
    const name: string
    const childClasses: Option<seq<string>>
    const actionOptions: map<string, map<string, bool>>

    /** Request-scoped state; the edit view overwrites `cmsPluginInstance`, `placeholder` and `page`. */
    var objectSuccessfullyChanged: bool
    var cmsPluginInstance: Option<PluginRow>
    var placeholder: Option<Placeholder>
    var page: Option<Page>
    /** The object last passed to `SaveModel`; `null` until then. */
    var savedObject: ModelObject?

    /** `__init__`: nothing changed yet, no instance, placeholder or page bound. */
    constructor (name: string, childClasses: Option<seq<string>>, actionOptions: map<string, map<string, bool>>)
      ensures this.name == name && this.childClasses == childClasses && this.actionOptions == actionOptions
      ensures !objectSuccessfullyChanged
      ensures cmsPluginInstance.None? && placeholder.None? && page.None? && savedObject == null
    {
      this.name := name;
      this.childClasses := childClasses;
      this.actionOptions := actionOptions;
      objectSuccessfullyChanged := false;
      cmsPluginInstance := None;
      placeholder := None;
      page := None;
      savedObject := null;
    }

    /** `render`: put the instance and the placeholder into the context and hand the same context back. */
    method Render(context: Context, instance: Value, placeholder: Value) returns (r: Context)
      modifies context
      ensures r == context
      ensures context.items.Keys == old(context.items.Keys) + {INSTANCE_KEY, PLACEHOLDER_KEY}
      ensures context.items[INSTANCE_KEY] == instance && context.items[PLACEHOLDER_KEY] == placeholder
      ensures forall k :: k in old(context.items) && k != INSTANCE_KEY && k != PLACEHOLDER_KEY ==>
                context.items[k] == old(context.items[k])
    {
      context.items := context.items[INSTANCE_KEY := instance];
      context.items := context.items[PLACEHOLDER_KEY := placeholder];
      r := context;
    }

    /**
      * `has_add_permission`: the wrapped row's change permission for the
      * request, as the `delegate` decides it; an `AttributeError` when no row
      * is bound.
      */
    function HasAddPermission(request: Request, delegate: (PluginRow, Request) -> bool): (r: Result<bool, AttributeError>)
      reads this
      ensures cmsPluginInstance.None? <==> r.Err?
      ensures cmsPluginInstance.Some? ==> r == Ok(delegate(cmsPluginInstance.value, request))
    {
      if cmsPluginInstance.None? then Err(AttributeError("has_change_permission"))
      else Ok(delegate(cmsPluginInstance.value, request))
    }

    /** `has_change_permission` is the same function as `has_add_permission`. */
    function HasChangePermission(request: Request, delegate: (PluginRow, Request) -> bool): (r: Result<bool, AttributeError>)
      reads this
      ensures cmsPluginInstance.None? <==> r.Err?
      ensures r == HasAddPermission(request, delegate)
    {
      HasAddPermission(request, delegate)
    }

    /** `has_delete_permission` is the same function as `has_add_permission`. */
    function HasDeletePermission(request: Request, delegate: (PluginRow, Request) -> bool): (r: Result<bool, AttributeError>)
      reads this
      ensures cmsPluginInstance.None? <==> r.Err?
      ensures r == HasAddPermission(request, delegate)
    {
      HasAddPermission(request, delegate)
    }

    /** The three permission checks always agree. */
    lemma PermissionsAgree(request: Request, delegate: (PluginRow, Request) -> bool)
      ensures HasChangePermission(request, delegate) == HasAddPermission(request, delegate)
      ensures HasDeletePermission(request, delegate) == HasAddPermission(request, delegate)
    {
    }

    /**
      * `save_model`: when a row is bound, copy each of its fields onto `obj`;
      * then remember `obj` as the saved object.
      */
    method SaveModel(obj: ModelObject)
      requires cmsPluginInstance.Some? ==> cmsPluginInstance.value.HasFieldAttributes()
      modifies this`savedObject, obj
      ensures savedObject == obj
      ensures cmsPluginInstance.None? ==> obj.attrs == old(obj.attrs)
      ensures cmsPluginInstance.Some? ==>
        obj.attrs == CopyFields(old(obj.attrs), cmsPluginInstance.value.model.fields, cmsPluginInstance.value.attrs)
    {
      if cmsPluginInstance.Some? {
        var row := cmsPluginInstance.value;
        var fields := row.model.fields;
        for i := 0 to |fields|
          invariant CopyFields(obj.attrs, fields[i..], row.attrs) == CopyFields(old(obj.attrs), fields, row.attrs)
        {
          assert fields[i..][1..] == fields[i + 1..];
          var value := row.attrs[fields[i].name];
          obj.attrs := obj.attrs[fields[i].name := value];
        }
      }
      savedObject := obj;
    }

    /**
      * `response_change`: record that the object changed and return the
      * keyword arguments passed on, with `continue_editing_url` defaulted
      * to the plugin edit view.
      */
    method ResponseChange(kwargs: map<string, Value>) returns (passed: map<string, Value>)
      modifies this`objectSuccessfullyChanged
      ensures objectSuccessfullyChanged
      ensures passed == SetDefault(kwargs, CONTINUE_EDITING_URL, StrValue(EDIT_PLUGIN_URL_NAME))
    {
      objectSuccessfullyChanged := true;
      passed := kwargs;
      if CONTINUE_EDITING_URL !in passed {
        passed := passed[CONTINUE_EDITING_URL := StrValue(EDIT_PLUGIN_URL_NAME)];
      }
    }

    /** `response_add`: the same as `response_change`, for a newly added object. */
    method ResponseAdd(kwargs: map<string, Value>) returns (passed: map<string, Value>)
      modifies this`objectSuccessfullyChanged
      ensures objectSuccessfullyChanged
      ensures passed == SetDefault(kwargs, CONTINUE_EDITING_URL, StrValue(EDIT_PLUGIN_URL_NAME))
    {
      objectSuccessfullyChanged := true;
      passed := kwargs;
      if CONTINUE_EDITING_URL !in passed {
        passed := passed[CONTINUE_EDITING_URL := StrValue(EDIT_PLUGIN_URL_NAME)];
      }
    }

    /** `icon_src`: no icon unless a text-enabled plugin type overrides it. */
    function IconSrc(instance: Value): (r: string)
      ensures |r| == 0
    {
      ""
    }

    /** `icon_alt`: the display name and the text of the instance, separated by " - ". */
    function IconAlt(instanceText: string): (r: string)
      ensures |r| == |name| + 3 + |instanceText|
      ensures r[..|name|] == name && r[|name| + 3..] == instanceText
      ensures r[|name|..|name| + 3] == " - "
    {
      name + " - " + instanceText
    }

    /** `child_classes` is truthy: a non-empty list. */
    predicate ChildClassesDeclared() {
      childClasses.Some? && |childClasses.value| > 0
    }

    /**
      * `get_child_classes`: the declared child classes, or else the class
      * names of every plugin type the registry offers for the slot and page.
      */
    function GetChildClasses(
      slot: string, page: Option<Page>,
      getAllPlugins: (string, Option<Page>) -> seq<PluginMetaclass.PluginClass>): (r: seq<string>)
      ensures ChildClassesDeclared() ==> r == childClasses.value
      ensures !ChildClassesDeclared() ==>
        var installed := getAllPlugins(slot, page);
        |r| == |installed| && forall i :: 0 <= i < |r| ==> r[i] == installed[i].className
    {
      if ChildClassesDeclared() then childClasses.value
      else
        var installed := getAllPlugins(slot, page);
        seq(|installed|, i requires 0 <= i < |installed| => installed[i].className)
    }

    /** `get_action_options`. */
    function GetActionOptions(): (r: map<string, map<string, bool>>)
      ensures r == actionOptions
    {
      actionOptions
    }

    /** `requires_reload`: whether the action's options ask for a reload, `False` by default. */
    method RequiresReload(action: string) returns (reloadRequired: bool)
      ensures reloadRequired <==> ReloadRequired(GetActionOptions(), action)
    {
      var actions := GetActionOptions();
      reloadRequired := false;
      if action in actions {
        var options := actions[action];
        reloadRequired := if REQUIRES_RELOAD in options then options[REQUIRES_RELOAD] else false;
      }
    }
  }

  /**
    * Under the default options moving and copying require a reload; an action
    * that is not a key, or whose entry lacks `requires_reload`, does not.
    */
  lemma DefaultReloads(options: map<string, map<string, bool>>, action: string)
    ensures ReloadRequired(DefaultActionOptions(), PLUGIN_MOVE_ACTION)
    ensures ReloadRequired(DefaultActionOptions(), PLUGIN_COPY_ACTION)
    ensures action != PLUGIN_MOVE_ACTION && action != PLUGIN_COPY_ACTION ==> !ReloadRequired(DefaultActionOptions(), action)
    ensures action !in options ==> !ReloadRequired(options, action)
    ensures action in options && REQUIRES_RELOAD !in options[action] ==> !ReloadRequired(options, action)
  {
  }
}
