/**
  * What the plugin code reads of the ORM's model introspection (`Model._meta`):
  * a model class, its method resolution order and its ordered field list.
  */
module ModelMeta {

  /** Name of the content-unit base model every plugin model must extend. */
  const CMS_PLUGIN: string := "CMSPlugin"

  /**
    * One entry of `model._meta.fields`. `advanced` records whether the field
    * object carries an attribute called `advanced` (only its presence matters).
    */
  datatype ModelField = ModelField(name: string, autoCreated: bool, editable: bool, advanced: bool)

  /**
    * A model class: its name, the names of the classes in its method
    * resolution order (itself first) and its fields in declaration order.
    */
  datatype ModelClass = ModelClass(name: string, mro: seq<string>, fields: seq<ModelField>)

  /** `issubclass(m, CMSPlugin)`: the base model occurs in the resolution order of `m`. */
  predicate IsPluginModel(m: ModelClass) {
    CMS_PLUGIN in m.mro
  }

  /** The `CMSPlugin` model itself, with the given fields. */
  function CMSPluginModel(fields: seq<ModelField>): (m: ModelClass)
    ensures IsPluginModel(m) && m.fields == fields
  {
    ModelClass(CMS_PLUGIN, [CMS_PLUGIN, "Model"], fields)
  }
}
