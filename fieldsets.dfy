/**
  * The default `fieldsets` of a plugin type: the model's editable, not
  * auto-created fields split, in model order, into a basic group and an
  * advanced group (fields carrying an `advanced` attribute).
  */
module Fieldsets {
  import opened Wrappers
  import opened ModelMeta

  /** Title of the second default group. */
  const ADVANCED_OPTIONS: string := "Advanced options"
  /** CSS class that makes the admin show a group collapsed. */
  const COLLAPSE: string := "collapse"

  /**
    * One `(title, {'fields': [...], 'classes': (...)})` entry of a fieldsets list;
    * `classes` is `None` when the dictionary has no `classes` key.
    */
  datatype Fieldset = Fieldset(title: Option<string>, fields: seq<string>, classes: Option<seq<string>>)

  /** A field shown in a default fieldset: not auto-created and editable. */
  predicate Eligible(f: ModelField) {
    !f.autoCreated && f.editable
  }

  /** A field of the advanced group (`advanced` true) or of the basic group (`advanced` false). */
  predicate InGroup(f: ModelField, advanced: bool) {
    Eligible(f) && f.advanced == advanced
  }

  /** Names of the eligible fields of `fs`, in order. */
  function EligibleNames(fs: seq<ModelField>): seq<string>
    decreases |fs|
  {
    if |fs| == 0 then []
    else EligibleNames(fs[..|fs| - 1]) + (if Eligible(fs[|fs| - 1]) then [fs[|fs| - 1].name] else [])
  }

  /** Names of the fields of `fs` in one group, in order. */
  function GroupNames(fs: seq<ModelField>, advanced: bool): seq<string>
    decreases |fs|
  {
    if |fs| == 0 then []
    else GroupNames(fs[..|fs| - 1], advanced) + (if InGroup(fs[|fs| - 1], advanced) then [fs[|fs| - 1].name] else [])
  }

  /**
    * `x` is an interleaving of `a` and `b`: `x` is made of exactly the elements
    * of `a` and of `b`, each of the two keeping its own order.
    */
  predicate Interleaves<T(==)>(x: seq<T>, a: seq<T>, b: seq<T>)
    decreases |x|
  {
    if |x| == 0 then a == [] && b == []
    else
      (|a| > 0 && a[|a| - 1] == x[|x| - 1] && Interleaves(x[..|x| - 1], a[..|a| - 1], b))
      || (|b| > 0 && b[|b| - 1] == x[|x| - 1] && Interleaves(x[..|x| - 1], a, b[..|b| - 1]))
  }

  /** The loop over `model._meta.fields` that appends each eligible field's name to its group. */
  method PartitionFields(fields: seq<ModelField>) returns (basic: seq<string>, advanced: seq<string>)
    ensures basic == GroupNames(fields, false)
    ensures advanced == GroupNames(fields, true)
  {
    basic, advanced := [], [];
    for i := 0 to |fields|
      invariant basic == GroupNames(fields[..i], false)
      invariant advanced == GroupNames(fields[..i], true)
    {
      var f := fields[i];
      assert fields[..i + 1][..i] == fields[..i];
      if !f.autoCreated && f.editable {
        if f.advanced {
          advanced := advanced + [f.name];
        } else {
          basic := basic + [f.name];
        }
      }
    }
    assert fields[..|fields|] == fields;
  }

  /**
    * The fieldsets assigned when none were declared: `None` (no assignment)
    * unless the advanced group is non-empty.
    */
  function DefaultFieldsets(fields: seq<ModelField>): (r: Option<seq<Fieldset>>)
    ensures r.None? <==> GroupNames(fields, true) == []
    ensures r.Some? ==> |r.value| == 2
    ensures r.Some? ==> r.value[0].title.None? && r.value[0].fields == GroupNames(fields, false) && r.value[0].classes.None?
    ensures r.Some? ==> r.value[1].title == Some(ADVANCED_OPTIONS) && r.value[1].fields == GroupNames(fields, true)
                        && r.value[1].classes == Some([COLLAPSE])
  {
    var advanced := GroupNames(fields, true);
    if |advanced| == 0 then None
    else Some([Fieldset(None, GroupNames(fields, false), None),
               Fieldset(Some(ADVANCED_OPTIONS), advanced, Some([COLLAPSE]))])
  }

  /** A name is in a group exactly when some field of that group has it. */
  lemma {:induction false} GroupMembership(fs: seq<ModelField>, advanced: bool, n: string)
    ensures n in GroupNames(fs, advanced) <==>
            exists i :: 0 <= i < |fs| && InGroup(fs[i], advanced) && fs[i].name == n
    decreases |fs|
  {
    if |fs| > 0 {
      var init := fs[..|fs| - 1];
      GroupMembership(init, advanced, n);
      if n in GroupNames(fs, advanced) && n !in GroupNames(init, advanced) {
        assert InGroup(fs[|fs| - 1], advanced) && fs[|fs| - 1].name == n;
      }
      if exists i :: 0 <= i < |fs| && InGroup(fs[i], advanced) && fs[i].name == n {
        var i :| 0 <= i < |fs| && InGroup(fs[i], advanced) && fs[i].name == n;
        if i < |fs| - 1 {
          assert init[i] == fs[i];
        }
      }
    }
  }

  /**
    * The basic and the advanced group together are exactly the eligible
    * fields: an interleaving of the two groups gives the eligible names in
    * model order.
    */
  lemma {:induction false} PartitionInterleaves(fs: seq<ModelField>)
    ensures Interleaves(EligibleNames(fs), GroupNames(fs, false), GroupNames(fs, true))
    decreases |fs|
  {
    if |fs| > 0 {
      var init := fs[..|fs| - 1];
      var f := fs[|fs| - 1];
      PartitionInterleaves(init);
      var e, b, a := EligibleNames(init), GroupNames(init, false), GroupNames(init, true);
      if Eligible(f) {
        assert (e + [f.name])[..|e|] == e;
        if f.advanced {
          assert GroupNames(fs, false) == b && GroupNames(fs, true) == a + [f.name];
          assert (a + [f.name])[..|a|] == a;
        } else {
          assert GroupNames(fs, true) == a && GroupNames(fs, false) == b + [f.name];
          assert (b + [f.name])[..|b|] == b;
        }
      } else {
        assert EligibleNames(fs) == e && GroupNames(fs, false) == b && GroupNames(fs, true) == a;
      }
    }
  }

  /** An interleaving of two sequences is a permutation of their concatenation. */
  lemma {:induction false} InterleavingIsPermutation<T>(x: seq<T>, a: seq<T>, b: seq<T>)
    requires Interleaves(x, a, b)
    ensures multiset(x) == multiset(a) + multiset(b)
    decreases |x|
  {
    if |x| > 0 {
      var init := x[..|x| - 1];
      assert x == init + [x[|x| - 1]];
      if |a| > 0 && a[|a| - 1] == x[|x| - 1] && Interleaves(init, a[..|a| - 1], b) {
        InterleavingIsPermutation(init, a[..|a| - 1], b);
        assert a == a[..|a| - 1] + [a[|a| - 1]];
      } else {
        InterleavingIsPermutation(init, a, b[..|b| - 1]);
        assert b == b[..|b| - 1] + [b[|b| - 1]];
      }
    }
  }

  /**
    * Default fieldsets are produced exactly when some eligible field is
    * advanced, and are then the basic group untitled and the advanced group
    * titled "Advanced options" and collapsed.
    */
  lemma DefaultFieldsetsShape(fields: seq<ModelField>)
    ensures DefaultFieldsets(fields).Some? <==> exists i :: 0 <= i < |fields| && InGroup(fields[i], true)
    ensures DefaultFieldsets(fields).Some? ==>
      DefaultFieldsets(fields).value ==
        [Fieldset(None, GroupNames(fields, false), None),
         Fieldset(Some(ADVANCED_OPTIONS), GroupNames(fields, true), Some([COLLAPSE]))]
  {
    var advanced := GroupNames(fields, true);
    if |advanced| > 0 {
      GroupMembership(fields, true, advanced[0]);
    }
    if exists i :: 0 <= i < |fields| && InGroup(fields[i], true) {
      var i :| 0 <= i < |fields| && InGroup(fields[i], true);
      GroupMembership(fields, true, fields[i].name);
    }
  }
}
