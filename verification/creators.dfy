/** Creator types and the merged creator-attribute view that the controller
    offers for a selection of created instances. */
module Creators {
  import opened Base
  import opened Data
  import opened Seqs

  /** The four creator types; a type is identified by its name. */
  datatype CreatorType = BaseCreator | AutoCreator | HiddenCreator | ArtistCreator

  function TypeName(t: CreatorType): string
  {
    match t
    case BaseCreator => "base"
    case AutoCreator => "auto"
    case HiddenCreator => "hidden"
    case ArtistCreator => "artist"
  }

  /** Looks a creator type up by name, trying base, auto, hidden and artist in
      turn; `None` stands for the `ValueError` raised for an unknown name. */
  function FromStr(value: string): (r: Option<CreatorType>)
    ensures r.Some? ==> TypeName(r.value) == value
    ensures r.None? ==> forall t: CreatorType :: TypeName(t) != value
  {
    if value == "base" then Some(BaseCreator)
    else if value == "auto" then Some(AutoCreator)
    else if value == "hidden" then Some(HiddenCreator)
    else if value == "artist" then Some(ArtistCreator)
    else None
  }

  /** Every creator type is found again from its own name. */
  lemma FromStrName(t: CreatorType)
    ensures FromStr(TypeName(t)) == Some(t)
  {
  }

  /** An attribute definition as far as the merge looks at it: two
      definitions are merged when they are equal. */
  datatype AttrDef = AttrDef(key: string, isValueDef: bool, labelText: string)

  datatype CreatedInstance = CreatedInstance(
    id: string,
    attrDefs: seq<AttrDef>,
    attributes: map<string, Value>)

  /** One definition as offered by one instance. */
  datatype Use = Use(instance: CreatedInstance, def: AttrDef)

  /** A merged definition with the instances offering it and, in parallel,
      each instance's value (`None` for a definition that holds no value). */
  datatype AttrGroup = AttrGroup(def: AttrDef, instances: seq<CreatedInstance>, values: seq<Option<Value>>)

  function UseDef(u: Use): AttrDef { u.def }
  function UseInstance(u: Use): CreatedInstance { u.instance }

  function UsesOf(x: CreatedInstance): (r: seq<Use>)
    ensures |r| == |x.attrDefs|
    ensures forall i :: 0 <= i < |r| ==> r[i] == Use(x, x.attrDefs[i])
  {
    seq(|x.attrDefs|, i requires 0 <= i < |x.attrDefs| => Use(x, x.attrDefs[i]))
  }

  /** Every definition of every instance, instance by instance. */
  function AllUses(xs: seq<CreatedInstance>): seq<Use>
    decreases |xs|
  {
    if |xs| == 0 then [] else UsesOf(xs[0]) + AllUses(xs[1..])
  }

  /** The value an instance holds for a definition, when it has one. */
  function Stored(u: Use): Option<Value>
  {
    if u.def.isValueDef && u.def.key in u.instance.attributes
    then Some(u.instance.attributes[u.def.key])
    else None
  }

  /** Whether reading the value succeeds: a value definition whose key the
      instance lacks raises `KeyError`. */
  predicate Readable(u: Use)
  {
    !u.def.isValueDef || u.def.key in u.instance.attributes
  }

  /** What the merge must produce for definition `d`: the instances offering
      it and their values, in input order. */
  function GroupFor(us: seq<Use>, d: AttrDef): AttrGroup
  {
    var f := FilterKey(us, UseDef, d);
    AttrGroup(d, Keys(f, UseInstance), Keys(f, Stored))
  }

  /** The groups `us` must produce for the definitions `ds`, in that order. */
  function Groups(us: seq<Use>, ds: seq<AttrDef>): (r: seq<AttrGroup>)
    ensures |r| == |ds|
    ensures forall i :: 0 <= i < |ds| ==> r[i] == GroupFor(us, ds[i])
  {
    seq(|ds|, i requires 0 <= i < |ds| => GroupFor(us, ds[i]))
  }

  /** One group per distinct definition, in order of first appearance. */
  function Expected(us: seq<Use>): seq<AttrGroup>
  {
    Groups(us, FirstSeen(Keys(us, UseDef)))
  }

  /** Position of the group already holding definition `d`. */
  function FindGroup(gs: seq<AttrGroup>, d: AttrDef): (r: Option<nat>)
    ensures r.Some? ==> r.value < |gs| && gs[r.value].def == d
    ensures r.Some? ==> forall k :: 0 <= k < r.value ==> gs[k].def != d
    ensures r.None? ==> forall k :: 0 <= k < |gs| ==> gs[k].def != d
    decreases |gs|
  {
    if |gs| == 0 then None
    else if gs[0].def == d then Some(0)
    else
      match FindGroup(gs[1..], d)
      case None => None
      case Some(k) => Some(k + 1)
  }

  /** Adds one use to the groups built so far: appended to the group of an
      equal definition, or opening a new group at the end. */
  function Place(gs: seq<AttrGroup>, u: Use, v: Option<Value>): seq<AttrGroup>
  {
    match FindGroup(gs, u.def)
    case None => gs + [AttrGroup(u.def, [u.instance], [v])]
    case Some(k) => gs[k := gs[k].(instances := gs[k].instances + [u.instance], values := gs[k].values + [v])]
  }

  /** The merge loop over the uses seen so far; `None` is the `KeyError`. */
  function Collect(us: seq<Use>): Option<seq<AttrGroup>>
    decreases |us|
  {
    if |us| == 0 then Some([])
    else
      var u := us[|us| - 1];
      match Collect(us[..|us| - 1])
      case None => None
      case Some(gs) => if Readable(u) then Some(Place(gs, u, Stored(u))) else None
  }

  /** The creator attributes shared by a selection of instances. */
  function AttributeDefinitions(xs: seq<CreatedInstance>): Option<seq<AttrGroup>>
  {
    Collect(AllUses(xs))
  }

  /** The merge fails exactly when some value definition lacks its value. */
  lemma {:induction false} CollectDefined(us: seq<Use>)
    ensures Collect(us).Some? <==> forall i :: 0 <= i < |us| ==> Readable(us[i])
    decreases |us|
  {
    if |us| > 0 {
      var init := us[..|us| - 1];
      CollectDefined(init);
      assert forall i :: 0 <= i < |init| ==> init[i] == us[i];
    }
  }

  /** How one more use changes what the merge must produce for a definition. */
  lemma GroupForSnoc(init: seq<Use>, u: Use, d: AttrDef)
    ensures GroupFor(init + [u], d)
         == if d == u.def
            then GroupFor(init, d).(instances := GroupFor(init, d).instances + [u.instance],
                                    values := GroupFor(init, d).values + [Stored(u)])
            else GroupFor(init, d)
  {
    FilterKeyAppend(init, [u], UseDef, d);
    var f := FilterKey(init, UseDef, d);
    var g := FilterKey([u], UseDef, d);
    assert FilterKey(init + [u], UseDef, d) == f + g;
    assert Keys(f + g, UseInstance) == Keys(f, UseInstance) + Keys(g, UseInstance);
    assert Keys(f + g, Stored) == Keys(f, Stored) + Keys(g, Stored);
    if d == u.def {
      assert g == [u];
    } else {
      assert g == [];
    }
  }

  /** A definition no earlier use offered has an empty group so far. */
  lemma GroupForUnseen(us: seq<Use>, d: AttrDef)
    requires d !in Keys(us, UseDef)
    ensures GroupFor(us, d) == AttrGroup(d, [], [])
  {
    FilterKeyNone(us, UseDef, d);
    var f := FilterKey(us, UseDef, d);
    assert Keys(f, UseInstance) == [];
    assert Keys(f, Stored) == [];
  }

  /** Groups for definitions other than the new use's are unchanged by it. */
  lemma PlaceOthers(init: seq<Use>, u: Use, fs: seq<AttrDef>)
    ensures forall k :: 0 <= k < |fs| && fs[k] != u.def ==> GroupFor(init + [u], fs[k]) == GroupFor(init, fs[k])
  {
    forall k | 0 <= k < |fs| && fs[k] != u.def
      ensures GroupFor(init + [u], fs[k]) == GroupFor(init, fs[k])
    {
      GroupForSnoc(init, u, fs[k]);
    }
  }

  /** The definitions in order of first appearance, one use later. */
  lemma DefsSnoc(init: seq<Use>, u: Use)
    ensures FirstSeen(Keys(init + [u], UseDef))
         == var fs := FirstSeen(Keys(init, UseDef)); if u.def in fs then fs else fs + [u.def]
  {
    var ds := Keys(init + [u], UseDef);
    assert ds[..|ds| - 1] == Keys(init, UseDef);
  }

  /** Placing a use whose definition already has a group extends that group
      and leaves the others alone. */
  lemma PlaceInGroup(init: seq<Use>, u: Use, fs: seq<AttrDef>)
    requires Distinct(fs) && u.def in fs
    ensures Place(Groups(init, fs), u, Stored(u)) == Groups(init + [u], fs)
  {
    var gs := Groups(init, fs);
    var k := IndexOf(fs, u.def);
    assert FindGroup(gs, u.def) == Some(k);
    GroupForSnoc(init, u, u.def);
    PlaceOthers(init, u, fs);
    var r := Place(gs, u, Stored(u));
    var e := Groups(init + [u], fs);
    forall j | 0 <= j < |fs|
      ensures r[j] == e[j]
    {
      if j != k {
        assert fs[j] != u.def;
      }
    }
  }

  /** Placing a use with a definition that has no group yet opens one at the end. */
  lemma PlaceNewGroup(init: seq<Use>, u: Use, fs: seq<AttrDef>)
    requires u.def !in fs && u.def !in Keys(init, UseDef)
    ensures Place(Groups(init, fs), u, Stored(u)) == Groups(init + [u], fs + [u.def])
  {
    var gs := Groups(init, fs);
    assert FindGroup(gs, u.def) == None;
    GroupForSnoc(init, u, u.def);
    GroupForUnseen(init, u.def);
    PlaceOthers(init, u, fs);
    var r := Place(gs, u, Stored(u));
    var e := Groups(init + [u], fs + [u.def]);
    forall j | 0 <= j < |r|
      ensures r[j] == e[j]
    {
      if j < |fs| {
        assert (fs + [u.def])[j] == fs[j];
      }
    }
  }

  /** The merge loop produces one group per distinct definition, in order of
      first appearance, each holding the offering instances and their values
      in input order. */
  lemma {:induction false} CollectGroups(us: seq<Use>)
    requires Collect(us).Some?
    ensures Collect(us).value == Expected(us)
    decreases |us|
  {
    if |us| > 0 {
      var init := us[..|us| - 1];
      var u := us[|us| - 1];
      assert us == init + [u];
      CollectGroups(init);
      DefsSnoc(init, u);
      var fs := FirstSeen(Keys(init, UseDef));
      if u.def in fs {
        PlaceInGroup(init, u, fs);
      } else {
        PlaceNewGroup(init, u, fs);
      }
    }
  }

  /** The merged attribute view: it exists exactly when every instance holds a
      value for each of its value definitions, and then it has one group per
      distinct definition in order of first appearance, listing the instances
      that offer it and their values in input order. */
  lemma AttributeDefinitionsMeaning(xs: seq<CreatedInstance>)
    ensures AttributeDefinitions(xs).Some? <==> forall i :: 0 <= i < |AllUses(xs)| ==> Readable(AllUses(xs)[i])
    ensures AttributeDefinitions(xs).Some? ==> AttributeDefinitions(xs).value == Expected(AllUses(xs))
  {
    assert AttributeDefinitions(xs) == Collect(AllUses(xs));
    CollectDefined(AllUses(xs));
    if AttributeDefinitions(xs).Some? {
      CollectGroups(AllUses(xs));
    }
  }
}
