/**
  * The class-preparation step of `CMSPluginBaseMetaclass`: when a plugin type
  * is defined it is validated (its model must extend `CMSPlugin`, it must have
  * a `render_template` attribute) and given a default form, default fieldsets
  * and a default display name.
  *
  * A `PluginClass` is a class as the interpreter built it, with every
  * attribute already looked up through its bases. `Subclass` models that
  * lookup for a class statement whose plugin base is already defined.
  */
module PluginMetaclass {
  import opened Wrappers
  import opened ModelMeta
  import opened Fieldsets
  import DisplayName

  /** The structural fields a synthesised form never shows. */
  const FORM_EXCLUDE: seq<string> := ["position", "placeholder", "language", "plugin_type"]
  /** Name of the root plugin type. */
  const BASE_CLASS_NAME: string := "CMSPluginBase"
  /** Message of the error raised when a plugin type has no `render_template` attribute. */
  const RENDER_TEMPLATE_MESSAGE: string := "CMSPluginBase subclasses must have a render_template attribute"

  /** An attribute of a class: absent, or present with a value (which may itself be `None`). */
  datatype Attr<T> = Absent | Present(value: T)

  /** A `ModelForm` subclass, described by its name and its `Meta` (bound model and excluded fields). */
  datatype FormClass = FormClass(className: string, model: ModelClass, exclude: seq<string>)

  /**
    * A plugin type after the interpreter created it: `className` is the name
    * in the class statement, `hasPluginParent` whether one of its bases is a
    * plugin type, `name` the display name (the `name` attribute).
    */
  datatype PluginClass = PluginClass(
    className: string,
    hasPluginParent: bool,
    model: ModelClass,
    renderTemplate: Attr<Option<string>>,
    form: Option<FormClass>,
    fieldsets: Option<seq<Fieldset>>,
    name: string)

  /** The configuration errors a class definition can raise. */
  datatype ConfigError =
    | SubClassNeededError(model: ModelClass, plugin: string)
    | ImproperlyConfigured(message: string)

  /** The `fieldsets` attribute is truthy: a non-empty list. */
  predicate FieldsetsDeclared(c: PluginClass) {
    c.fieldsets.Some? && |c.fieldsets.value| > 0
  }

  /** The form synthesised for a plugin type that has none: `<ClassName>Form` bound to its model. */
  function DefaultForm(c: PluginClass): (f: FormClass)
    ensures f.className == c.className + "Form" && f.model == c.model
    ensures forall n :: n in f.exclude <==> n in {"position", "placeholder", "language", "plugin_type"}
  {
    FormClass(c.className + "Form", c.model, FORM_EXCLUDE)
  }

  /**
    * What `CMSPluginBaseMetaclass.__new__` returns for a created class, or the
    * error it raises. Only the form, the fieldsets and the display name can
    * change; the checks run model first, template second, before any default.
    */
  function Prepare(c: PluginClass): (r: Result<PluginClass, ConfigError>)
    ensures !c.hasPluginParent ==> r == Ok(c)
    ensures r.Ok? <==> !c.hasPluginParent || (IsPluginModel(c.model) && c.renderTemplate.Present?)
    ensures c.hasPluginParent && !IsPluginModel(c.model) ==> r == Err(SubClassNeededError(c.model, c.className))
    ensures c.hasPluginParent && IsPluginModel(c.model) && c.renderTemplate.Absent? ==>
              r == Err(ImproperlyConfigured(RENDER_TEMPLATE_MESSAGE))
    ensures r.Err? && r.error.ImproperlyConfigured? ==> c.renderTemplate.Absent?
    ensures r.Ok? ==> r.value.className == c.className && r.value.hasPluginParent == c.hasPluginParent
                      && r.value.model == c.model && r.value.renderTemplate == c.renderTemplate
  {
    if !c.hasPluginParent then Ok(c)
    else if !IsPluginModel(c.model) then Err(SubClassNeededError(c.model, c.className))
    else if c.renderTemplate.Absent? then Err(ImproperlyConfigured(RENDER_TEMPLATE_MESSAGE))
    else
      Ok(c.(form := if c.form.Some? then c.form else Some(DefaultForm(c)),
            fieldsets :=
              if FieldsetsDeclared(c) then c.fieldsets
              else match DefaultFieldsets(c.model.fields)
                   case Some(defaults) => Some(defaults)
                   case None => c.fieldsets,
            name := if c.name != "" then c.name else DisplayName.SubCamel(c.className)))
  }

  /**
    * The metaclass hook itself: validate, then assign the defaults on the new
    * class one attribute at a time, building the fieldsets with the loop of
    * `PartitionFields`.
    */
  method New(c: PluginClass) returns (r: Result<PluginClass, ConfigError>)
    ensures r == Prepare(c)
  {
    if !c.hasPluginParent {
      return Ok(c);
    }
    var plugin := c;
    if !IsPluginModel(plugin.model) {
      return Err(SubClassNeededError(plugin.model, plugin.className));
    }
    if plugin.renderTemplate.Absent? {
      return Err(ImproperlyConfigured(RENDER_TEMPLATE_MESSAGE));
    }
    if plugin.form.None? {
      plugin := plugin.(form := Some(FormClass(plugin.className + "Form", plugin.model, FORM_EXCLUDE)));
    }
    if !(plugin.fieldsets.Some? && |plugin.fieldsets.value| > 0) {
      var basic, advanced := PartitionFields(plugin.model.fields);
      if |advanced| > 0 {
        plugin := plugin.(fieldsets := Some([Fieldset(None, basic, None),
                                             Fieldset(Some(ADVANCED_OPTIONS), advanced, Some([COLLAPSE]))]));
      }
    }
    if plugin.name == "" {
      plugin := plugin.(name := DisplayName.SubCamel(plugin.className));
    }
    r := Ok(plugin);
  }

  /**
    * A form is synthesised only when the class has none: it is bound to the
    * plugin's model and excludes exactly the four structural fields. A form
    * the class has is kept.
    */
  lemma FormDefaulting(c: PluginClass)
    requires c.hasPluginParent && Prepare(c).Ok?
    ensures c.form.Some? ==> Prepare(c).value.form == c.form
    ensures c.form.None? ==> Prepare(c).value.form.Some?
    ensures c.form.None? ==>
      var f := Prepare(c).value.form.value;
      f.className == c.className + "Form" && f.model == c.model
      && f.exclude == ["position", "placeholder", "language", "plugin_type"]
  {
  }

  /**
    * Declared fieldsets are kept. Otherwise, when some editable, not
    * auto-created field is advanced, the fieldsets become exactly the basic
    * group untitled and the advanced group collapsed under "Advanced options";
    * when none is, the fieldsets stay as they were.
    */
  lemma FieldsetDefaulting(c: PluginClass)
    requires c.hasPluginParent && Prepare(c).Ok?
    ensures FieldsetsDeclared(c) ==> Prepare(c).value.fieldsets == c.fieldsets
    ensures !FieldsetsDeclared(c) && (exists i :: 0 <= i < |c.model.fields| && InGroup(c.model.fields[i], true)) ==>
      Prepare(c).value.fieldsets ==
        Some([Fieldset(None, GroupNames(c.model.fields, false), None),
              Fieldset(Some(ADVANCED_OPTIONS), GroupNames(c.model.fields, true), Some([COLLAPSE]))])
    ensures !FieldsetsDeclared(c) && !(exists i :: 0 <= i < |c.model.fields| && InGroup(c.model.fields[i], true)) ==>
      Prepare(c).value.fieldsets == c.fieldsets
  {
    DefaultFieldsetsShape(c.model.fields);
  }

  /**
    * A non-empty display name is kept; an empty one becomes the class name
    * with one space at each lower-to-upper adjacency.
    */
  lemma NameDefaulting(c: PluginClass)
    requires c.hasPluginParent && Prepare(c).Ok?
    ensures c.name != "" ==> Prepare(c).value.name == c.name
    ensures c.name == "" ==> Prepare(c).value.name == DisplayName.SpaceCamel(c.className)
    ensures c.name == "" ==> DisplayName.NoBoundary(Prepare(c).value.name)
  {
    DisplayName.SubCamelIsSpaceCamel(c.className);
    DisplayName.SpaceCamelLeavesNoBoundary(c.className);
  }

  /** Preparing an already prepared class changes nothing: the defaults are a fixed point. */
  lemma PrepareIdempotent(c: PluginClass)
    requires Prepare(c).Ok?
    ensures Prepare(Prepare(c).value) == Prepare(c)
  {
  }

  /** A class statement: the attributes its body assigns (`Absent` when it leaves one to its bases). */
  datatype ClassBody = ClassBody(
    className: string,
    model: Attr<ModelClass>,
    renderTemplate: Attr<Option<string>>,
    form: Attr<Option<FormClass>>,
    fieldsets: Attr<Option<seq<Fieldset>>>,
    name: Attr<string>)

  /** Attribute lookup: the body's own value, else the one inherited from the base. */
  function Lookup<T>(own: Attr<T>, inherited: T): T {
    if own.Present? then own.value else inherited
  }

  /** The class the interpreter creates for `body` with the plugin type `parent` as its base. */
  function Subclass(parent: PluginClass, body: ClassBody): (c: PluginClass)
    ensures c.hasPluginParent && c.className == body.className
    ensures body.renderTemplate.Absent? ==> c.renderTemplate == parent.renderTemplate
    ensures body.renderTemplate.Present? ==> c.renderTemplate.Present?
  {
    PluginClass(
      body.className,
      true,
      Lookup(body.model, parent.model),
      if body.renderTemplate.Present? then body.renderTemplate else parent.renderTemplate,
      Lookup(body.form, parent.form),
      Lookup(body.fieldsets, parent.fieldsets),
      Lookup(body.name, parent.name))
  }

  /**
    * The root plugin type `CMSPluginBase`: model `CMSPlugin`, `render_template`
    * present with value `None`, no form, no fieldsets, an empty name.
    */
  function BaseClass(cmsPluginFields: seq<ModelField>): (c: PluginClass)
    ensures !c.hasPluginParent && IsPluginModel(c.model) && c.renderTemplate == Present(None)
  {
    PluginClass(BASE_CLASS_NAME, false, CMSPluginModel(cmsPluginFields), Present(None), None, None, "")
  }

  /** The root type passes through the metaclass untouched. */
  lemma BaseClassUntouched(cmsPluginFields: seq<ModelField>)
    ensures Prepare(BaseClass(cmsPluginFields)) == Ok(BaseClass(cmsPluginFields))
  {
  }

  /** Defining `bodies` in turn, each one subclassing the type defined before it, starting below `top`. */
  function DefineChain(top: PluginClass, bodies: seq<ClassBody>): Result<PluginClass, ConfigError>
    decreases |bodies|
  {
    if |bodies| == 0 then Ok(top)
    else match Prepare(Subclass(top, bodies[0]))
         case Err(e) => Err(e)
         case Ok(p) => DefineChain(p, bodies[1..])
  }

  /** Every model that one of `bodies` declares extends `CMSPlugin`. */
  predicate DeclaredModelsValid(bodies: seq<ClassBody>) {
    forall i :: 0 <= i < |bodies| && bodies[i].model.Present? ==> IsPluginModel(bodies[i].model.value)
  }

  /**
    * Below a type that has a `render_template` attribute, the template check
    * can never fail: the attribute is inherited by every subclass.
    */
  lemma {:induction false} TemplateCheckNeverFails(top: PluginClass, bodies: seq<ClassBody>)
    requires top.renderTemplate.Present?
    ensures !(DefineChain(top, bodies).Err? && DefineChain(top, bodies).error.ImproperlyConfigured?)
    decreases |bodies|
  {
    if |bodies| > 0 {
      var r := Prepare(Subclass(top, bodies[0]));
      if r.Ok? {
        TemplateCheckNeverFails(r.value, bodies[1..]);
      }
    }
  }

  /**
    * Below a valid type, a chain of class definitions succeeds exactly when
    * every model it declares extends `CMSPlugin`; otherwise it fails with
    * `SubClassNeededError`.
    */
  lemma {:induction false} ChainValidation(top: PluginClass, bodies: seq<ClassBody>)
    requires IsPluginModel(top.model) && top.renderTemplate.Present?
    ensures DefineChain(top, bodies).Ok? <==> DeclaredModelsValid(bodies)
    ensures DefineChain(top, bodies).Err? ==> DefineChain(top, bodies).error.SubClassNeededError?
    decreases |bodies|
  {
    if |bodies| > 0 {
      var c := Subclass(top, bodies[0]);
      var r := Prepare(c);
      if r.Ok? {
        ChainValidation(r.value, bodies[1..]);
        if DeclaredModelsValid(bodies[1..]) {
          forall i | 0 <= i < |bodies| && bodies[i].model.Present?
            ensures IsPluginModel(bodies[i].model.value)
          {
            if i > 0 {
              assert bodies[1..][i - 1] == bodies[i];
            }
          }
        } else {
          var j :| 0 <= j < |bodies[1..]| && bodies[1..][j].model.Present? && !IsPluginModel(bodies[1..][j].model.value);
          assert bodies[j + 1] == bodies[1..][j];
        }
      } else {
        assert !DeclaredModelsValid(bodies) by {
          assert bodies[0].model.Present? && !IsPluginModel(bodies[0].model.value);
        }
      }
    }
  }

  /**
    * Every plugin type defined below `CMSPluginBase` passes validation when its
    * models extend `CMSPlugin`, even if no class in the chain ever sets a
    * template; the template it ends up with may still be `None`.
    */
  lemma {:induction false} BaseSubclassesValidate(cmsPluginFields: seq<ModelField>, bodies: seq<ClassBody>)
    requires DeclaredModelsValid(bodies)
    requires forall i :: 0 <= i < |bodies| ==> bodies[i].renderTemplate.Absent?
    ensures DefineChain(BaseClass(cmsPluginFields), bodies).Ok?
    ensures DefineChain(BaseClass(cmsPluginFields), bodies).value.renderTemplate == Present(None)
  {
    ChainValidation(BaseClass(cmsPluginFields), bodies);
    TemplateKept(BaseClass(cmsPluginFields), bodies);
  }

  /** A chain that never declares a template keeps the one at its top. */
  lemma {:induction false} TemplateKept(top: PluginClass, bodies: seq<ClassBody>)
    requires forall i :: 0 <= i < |bodies| ==> bodies[i].renderTemplate.Absent?
    requires DefineChain(top, bodies).Ok?
    ensures DefineChain(top, bodies).value.renderTemplate == top.renderTemplate
    decreases |bodies|
  {
    if |bodies| > 0 {
      var r := Prepare(Subclass(top, bodies[0]));
      assert bodies[0].renderTemplate.Absent?;
      forall i | 0 <= i < |bodies[1..]|
        ensures bodies[1..][i].renderTemplate.Absent?
      {
        assert bodies[1..][i] == bodies[i + 1];
      }
      TemplateKept(r.value, bodies[1..]);
    }
  }

  /**
    * Defaults are inherited, not recomputed: a subclass that leaves the form,
    * the fieldsets or the name to its base keeps the base's (already
    * defaulted) value, even when it declares another model.
    */
  lemma InheritedDefaultsKept(parent: PluginClass, body: ClassBody)
    requires Prepare(Subclass(parent, body)).Ok?
    ensures parent.form.Some? && body.form.Absent? ==> Prepare(Subclass(parent, body)).value.form == parent.form
    ensures FieldsetsDeclared(parent) && body.fieldsets.Absent? ==>
      Prepare(Subclass(parent, body)).value.fieldsets == parent.fieldsets
    ensures parent.name != "" && body.name.Absent? ==> Prepare(Subclass(parent, body)).value.name == parent.name
  {
  }
}
