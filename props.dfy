/**
 * The props normaliser, `normalizePropsOptions`: it turns a props
 * declaration into a dictionary of descriptors keyed by camel-cased name and
 * writes into each descriptor whether the prop is reflected as an observed
 * attribute. `camelize` is a parameter of every member, so nothing here
 * depends on how names are camel-cased.
 *
 * The first half states the normaliser on values; the second half is the
 * normaliser itself, over options objects that live on the heap, because
 * the source reuses the caller's options object and writes the flag into it.
 */
module Props {
  import opened Wrappers
  import opened Js
  import opened Dicts
  import opened PropTypes

  /** The keys of a prop options object that the normaliser reads or writes. */
  datatype Options = Options(
    propType: TypeField,
    required: Option<bool>,
    defaultValue: Option<Value>,
    validator: Option<FunctionId>,
    attribute: Option<bool>)

  /**
   * The value under one key of a keyed declaration: `null`, a constructor or
   * array of constructors, or an options object, given as `O`.
   */
  datatype PropOption<O> = NullOption | TypeOption(t: PropType) | ObjectOption(obj: O)

  /**
   * A props declaration: an array of names, `null`/`undefined`, a keyed
   * object (its keys in enumeration order), or any other value.
   */
  datatype Declaration<O> =
    | NameList(names: seq<string>)
    | Nullish
    | Keyed(entries: seq<(string, PropOption<O>)>)
    | NotAnObject

  /** A normalised descriptor: `None` is the `null` descriptor. */
  type Descriptor = Option<Options>

  /** `isAttributeType(getType(type))` */
  predicate AttributeFlag(t: TypeField) {
    IsAttributeType(GetType(t))
  }

  /** An options object after the normaliser has written its attribute flag. */
  function WithFlag(o: Options): Options {
    o.(attribute := Some(AttributeFlag(o.propType)))
  }

  /** `{ type: null, [PropFlags.attribute]: true }`, the descriptor of a listed name. */
  const ListDescriptor: Options := Options(NullType, None, None, None, Some(true))

  /** What the keyed branch stores for one option, flag included. */
  function NormalizeOption(opt: PropOption<Options>): Descriptor {
    match opt
    case NullOption => None
    case TypeOption(t) => Some(WithFlag(Options(Typed(t), None, None, None, None)))
    case ObjectOption(o) => Some(WithFlag(o))
  }

  /** The array branch: one list descriptor per camel-cased name, assigned in turn. */
  function NormalizeNames(names: seq<string>, camelize: string -> string): (r: Dict<Descriptor>)
    ensures r.Valid()
  {
    if names == [] then Empty()
    else
      var n := |names| - 1;
      Put(NormalizeNames(names[..n], camelize), camelize(names[n]), Some(ListDescriptor))
  }

  /** Entries assigned in turn under their camel-cased keys: a later entry overwrites an earlier one. */
  function Collect<O>(entries: seq<(string, O)>, camelize: string -> string): (r: Dict<O>)
    ensures r.Valid()
  {
    if entries == [] then Empty()
    else
      var n := |entries| - 1;
      Put(Collect(entries[..n], camelize), camelize(entries[n].0), entries[n].1)
  }

  /** The keyed branch: each option normalised and assigned in turn under its camel-cased key. */
  function NormalizeEntries(entries: seq<(string, PropOption<Options>)>, camelize: string -> string): (r: Dict<Descriptor>)
    ensures r.Valid()
  {
    if entries == [] then Empty()
    else
      var n := |entries| - 1;
      Put(NormalizeEntries(entries[..n], camelize), camelize(entries[n].0), NormalizeOption(entries[n].1))
  }

  /** `normalizePropsOptions` on a declaration whose options objects are given as values. */
  function Normalize(decl: Declaration<Options>, camelize: string -> string): (r: Dict<Descriptor>)
    ensures r.Valid()
  {
    match decl
    case NameList(names) => NormalizeNames(names, camelize)
    case Nullish => Empty()
    case Keyed(entries) => NormalizeEntries(entries, camelize)
    case NotAnObject => Empty()
  }

  /** The camel-cased names a declaration declares. */
  function DeclaredKeys<O>(decl: Declaration<O>, camelize: string -> string): set<string> {
    match decl
    case NameList(names) => set i | 0 <= i < |names| :: camelize(names[i])
    case Keyed(entries) => CamelKeys(entries, camelize)
    case _ => {}
  }

  /** `v && v[PropFlags.attribute]` */
  predicate Reflected(d: Descriptor) {
    d.Some? && d.value.attribute == Some(true)
  }

  function Observed(order: seq<string>, entries: map<string, Descriptor>): seq<string> {
    if order == [] then []
    else (if order[0] in entries && Reflected(entries[order[0]]) then [order[0]] else [])
         + Observed(order[1..], entries)
  }

  /**
   * `Object.entries(normalized).filter(([_k, v]) => v && v[PropFlags.attribute]).map(([k]) => k)`
   * in `defineComponent`.
   */
  function ObservedAttributes(d: Dict<Descriptor>): seq<string> {
    Observed(d.order, d.entries)
  }

  // ---------------------------------------------------------------------------
  // Properties of the normaliser on values.

  lemma {:induction false} CollectKeys<O>(entries: seq<(string, O)>, camelize: string -> string)
    ensures Collect(entries, camelize).entries.Keys == CamelKeys(entries, camelize)
  {
    if entries != [] {
      var n := |entries| - 1;
      CollectKeys(entries[..n], camelize);
      CamelKeysStep(entries, camelize);
    }
  }

  /** The camel-cased keys of a sequence of entries. */
  function CamelKeys<O>(entries: seq<(string, O)>, camelize: string -> string): set<string> {
    set i | 0 <= i < |entries| :: camelize(entries[i].0)
  }

  lemma CamelKeysStep<O>(entries: seq<(string, O)>, camelize: string -> string)
    requires entries != []
    ensures CamelKeys(entries, camelize)
         == CamelKeys(entries[..|entries| - 1], camelize) + {camelize(entries[|entries| - 1].0)}
  {
    var n := |entries| - 1;
    var prefix := entries[..n];
    var before, after := CamelKeys(prefix, camelize), CamelKeys(entries, camelize);
    forall k | k in after ensures k in before + {camelize(entries[n].0)} {
      var i :| 0 <= i < |entries| && camelize(entries[i].0) == k;
      if i < n { assert prefix[i] == entries[i]; }
    }
    forall k | k in before ensures k in after {
      var i :| 0 <= i < |prefix| && camelize(prefix[i].0) == k;
      assert prefix[i] == entries[i];
    }
  }

  /** The last entry under a camel-cased key is the one that stays. */
  lemma {:induction false} CollectLastWins<O>(entries: seq<(string, O)>, camelize: string -> string, i: nat)
    requires i < |entries|
    requires forall j :: i < j < |entries| ==> camelize(entries[j].0) != camelize(entries[i].0)
    ensures camelize(entries[i].0) in Collect(entries, camelize).entries
    ensures Collect(entries, camelize).entries[camelize(entries[i].0)] == entries[i].1
  {
    var n := |entries| - 1;
    if i < n {
      var prefix := entries[..n];
      assert prefix[i] == entries[i];
      forall j | i < j < |prefix| ensures camelize(prefix[j].0) != camelize(prefix[i].0) {
        assert prefix[j] == entries[j];
      }
      CollectLastWins(prefix, camelize, i);
      assert Collect(entries, camelize).entries
          == Collect(prefix, camelize).entries[camelize(entries[n].0) := entries[n].1];
    }
  }

  /** Collecting depends only on the keys for which keys are kept and in which order. */
  lemma {:induction false} CollectSameKeys<A, B>(a: seq<(string, A)>, b: seq<(string, B)>, camelize: string -> string)
    requires |a| == |b|
    requires forall j :: 0 <= j < |a| ==> a[j].0 == b[j].0
    ensures Collect(a, camelize).order == Collect(b, camelize).order
    ensures Collect(a, camelize).entries.Keys == Collect(b, camelize).entries.Keys
  {
    if a != [] {
      var n := |a| - 1;
      CollectSameKeys(a[..n], b[..n], camelize);
    }
  }

  /** Under two sequences with the same keys, the same entry survives under each key. */
  lemma {:induction false} CollectSameIndex<A, B>(a: seq<(string, A)>, b: seq<(string, B)>, camelize: string -> string, k: string)
    returns (j: nat)
    requires |a| == |b|
    requires forall j :: 0 <= j < |a| ==> a[j].0 == b[j].0
    requires k in Collect(a, camelize).entries
    ensures j < |a| && k in Collect(b, camelize).entries
    ensures Collect(a, camelize).entries[k] == a[j].1 && Collect(b, camelize).entries[k] == b[j].1
  {
    var n := |a| - 1;
    CollectSameKeys(a, b, camelize);
    if camelize(a[n].0) == k {
      j := n;
    } else {
      j := CollectSameIndex(a[..n], b[..n], camelize, k);
    }
  }

  /** Normalising in turn is normalising the last entry under each key. */
  lemma {:induction false} NormalizeEntriesCollect(entries: seq<(string, PropOption<Options>)>, camelize: string -> string)
    ensures NormalizeEntries(entries, camelize).order == Collect(entries, camelize).order
    ensures NormalizeEntries(entries, camelize).entries.Keys == Collect(entries, camelize).entries.Keys
    ensures forall k :: k in NormalizeEntries(entries, camelize).entries
                    ==> NormalizeEntries(entries, camelize).entries[k] == NormalizeOption(Collect(entries, camelize).entries[k])
  {
    if entries != [] {
      var n := |entries| - 1;
      NormalizeEntriesCollect(entries[..n], camelize);
    }
  }

  lemma {:induction false} NormalizeNamesShape(names: seq<string>, camelize: string -> string)
    ensures NormalizeNames(names, camelize).entries.Keys == set i | 0 <= i < |names| :: camelize(names[i])
    ensures forall k :: k in NormalizeNames(names, camelize).entries
                    ==> NormalizeNames(names, camelize).entries[k] == Some(ListDescriptor)
  {
    if names != [] {
      var n := |names| - 1;
      var prefix := names[..n];
      NormalizeNamesShape(prefix, camelize);
      NameKeysStep(names, camelize);
    }
  }

  /** The camel-cased names of a list are those of all but its last name, and the last one's. */
  lemma NameKeysStep(names: seq<string>, camelize: string -> string)
    requires names != []
    ensures var n := |names| - 1;
      (set i | 0 <= i < |names| :: camelize(names[i]))
        == (set i | 0 <= i < n :: camelize(names[..n][i])) + {camelize(names[n])}
  {
    var n := |names| - 1;
    var before := set i | 0 <= i < n :: camelize(names[..n][i]);
    var after := set i | 0 <= i < |names| :: camelize(names[i]);
    forall k | k in after ensures k in before + {camelize(names[n])} {
      var i :| 0 <= i < |names| && camelize(names[i]) == k;
      if i < n { assert names[..n][i] == names[i]; }
    }
    forall k | k in before ensures k in after {
      var i :| 0 <= i < n && camelize(names[..n][i]) == k;
      assert names[..n][i] == names[i];
    }
  }

  lemma {:induction false} ObservedMembers(order: seq<string>, entries: map<string, Descriptor>)
    ensures forall k :: k in Observed(order, entries) <==> k in order && k in entries && Reflected(entries[k])
  {
    if order != [] {
      ObservedMembers(order[1..], entries);
      assert order == [order[0]] + order[1..];
    }
  }

  lemma {:induction false} ObservedAllReflected(order: seq<string>, entries: map<string, Descriptor>)
    requires forall k :: k in order ==> k in entries && Reflected(entries[k])
    ensures Observed(order, entries) == order
  {
    if order != [] {
      assert order[0] in order;
      forall k | k in order[1..] ensures k in entries && Reflected(entries[k]) {
        assert k in order;
      }
      ObservedAllReflected(order[1..], entries);
    }
  }

  lemma {:induction false} NormalizeNamesDistinct(names: seq<string>, camelize: string -> string)
    ensures Distinct(NormalizeNames(names, camelize).order)
  {
    if names != [] {
      var n := |names| - 1;
      NormalizeNamesDistinct(names[..n], camelize);
      PutKeepsDistinct(NormalizeNames(names[..n], camelize), camelize(names[n]), Some(ListDescriptor));
    }
  }

  lemma {:induction false} NormalizeEntriesDistinct(entries: seq<(string, PropOption<Options>)>, camelize: string -> string)
    ensures Distinct(NormalizeEntries(entries, camelize).order)
  {
    if entries != [] {
      var n := |entries| - 1;
      NormalizeEntriesDistinct(entries[..n], camelize);
      PutKeepsDistinct(NormalizeEntries(entries[..n], camelize), camelize(entries[n].0), NormalizeOption(entries[n].1));
    }
  }

  lemma {:induction false} ObservedDistinct(order: seq<string>, entries: map<string, Descriptor>)
    requires Distinct(order)
    ensures Distinct(Observed(order, entries))
  {
    if order != [] {
      var rest := order[1..];
      assert Distinct(rest) by {
        forall i, j | 0 <= i < j < |rest| ensures rest[i] != rest[j] {
          assert rest[i] == order[i + 1] && rest[j] == order[j + 1];
        }
      }
      ObservedDistinct(rest, entries);
      ObservedMembers(rest, entries);
      var head := if order[0] in entries && Reflected(entries[order[0]]) then [order[0]] else [];
      var tail := Observed(rest, entries);
      forall i, j | 0 <= i < j < |head + tail| ensures (head + tail)[i] != (head + tail)[j] {
        if i < |head| {
          assert (head + tail)[j] == tail[j - |head|] && tail[j - |head|] in tail;
          forall m | 0 <= m < |rest| ensures rest[m] != order[0] {
            assert rest[m] == order[m + 1];
          }
        } else {
          assert (head + tail)[i] == tail[i - |head|] && (head + tail)[j] == tail[j - |head|];
        }
      }
    }
  }

  /**
   * `Object.entries` of the normalised dictionary lists every key once, so
   * the observed attributes never repeat a name.
   */
  lemma NormalizeDistinct(decl: Declaration<Options>, camelize: string -> string)
    ensures Distinct(Normalize(decl, camelize).order)
    ensures Distinct(ObservedAttributes(Normalize(decl, camelize)))
  {
    match decl {
      case NameList(names) => NormalizeNamesDistinct(names, camelize);
      case Keyed(entries) => NormalizeEntriesDistinct(entries, camelize);
      case Nullish =>
      case NotAnObject =>
    }
    var r := Normalize(decl, camelize);
    ObservedDistinct(r.order, r.entries);
  }

  /** No declared prop is dropped and none is invented; `null` and non-objects declare nothing. */
  lemma DeclaredKeysKept(decl: Declaration<Options>, camelize: string -> string)
    ensures Normalize(decl, camelize).entries.Keys == DeclaredKeys(decl, camelize)
  {
    match decl
    case NameList(names) => NormalizeNamesShape(names, camelize);
    case Keyed(entries) =>
      NormalizeEntriesCollect(entries, camelize);
      CollectKeys(entries, camelize);
    case _ =>
  }

  /**
   * The array form: every listed name gets `{ type: null, attribute: true }`
   * under its camel-cased key, and every one of them is observed.
   */
  lemma NameListDeclaration(names: seq<string>, camelize: string -> string)
    ensures var r := Normalize(NameList(names), camelize);
      && (forall i :: 0 <= i < |names| ==>
            camelize(names[i]) in r.entries && r.entries[camelize(names[i])] == Some(ListDescriptor))
      && r.entries.Keys == (set i | 0 <= i < |names| :: camelize(names[i]))
      && ObservedAttributes(r) == r.order
  {
    var r := Normalize(NameList(names), camelize);
    NormalizeNamesShape(names, camelize);
    assert forall i :: 0 <= i < |names| ==> camelize(names[i]) in r.entries;
    forall k | k in r.order ensures k in r.entries && Reflected(r.entries[k]) {
      assert k in r.entries;
    }
    ObservedAllReflected(r.order, r.entries);
  }

  /**
   * The keyed form, one entry at a time: the last entry under a camel-cased
   * key decides its descriptor. A `null` option gives the `null` descriptor;
   * a constructor or array is wrapped as `{ type: opt }`; an options object
   * is kept with all its keys and only the flag written; the flag is set
   * exactly when getType names a scalar constructor.
   */
  lemma KeyedEntry(entries: seq<(string, PropOption<Options>)>, camelize: string -> string, i: nat)
    requires i < |entries|
    requires forall j :: i < j < |entries| ==> camelize(entries[j].0) != camelize(entries[i].0)
    ensures var r := Normalize(Keyed(entries), camelize);
      var key, opt := camelize(entries[i].0), entries[i].1;
      && key in r.entries
      && (opt.NullOption? ==> r.entries[key] == None)
      && (opt.TypeOption? ==> r.entries[key] == Some(Options(Typed(opt.t), None, None, None, Some(AttributeFlag(Typed(opt.t))))))
      && (opt.ObjectOption? ==>
            && r.entries[key].Some?
            && r.entries[key].value.(attribute := opt.obj.attribute) == opt.obj
            && r.entries[key].value.attribute == Some(AttributeFlag(opt.obj.propType)))
  {
    NormalizeEntriesCollect(entries, camelize);
    CollectLastWins(entries, camelize, i);
  }

  /**
   * The keyed form as a whole: every non-null descriptor carries the flag,
   * true exactly for a scalar type, and the observed attributes are exactly
   * the keys with such a descriptor.
   */
  lemma KeyedDeclaration(entries: seq<(string, PropOption<Options>)>, camelize: string -> string)
    ensures var r := Normalize(Keyed(entries), camelize);
      && (forall k :: k in r.entries ==> FlagWritten(r.entries[k]))
      && (forall k :: k in ObservedAttributes(r)
                  <==> k in r.entries && r.entries[k].Some? && AttributeFlag(r.entries[k].value.propType))
  {
    var r := Normalize(Keyed(entries), camelize);
    EntriesFlagged(entries, camelize);
    ObservedAttributesMembers(r);
  }

  /** A non-null descriptor whose flag is `isAttributeType(getType(type))`. */
  predicate FlagWritten(d: Descriptor) {
    d.Some? ==> d.value.attribute == Some(AttributeFlag(d.value.propType))
  }

  /** Every descriptor the keyed branch stores carries its written flag. */
  lemma {:induction false} EntriesFlagged(entries: seq<(string, PropOption<Options>)>, camelize: string -> string)
    ensures forall k :: k in NormalizeEntries(entries, camelize).entries
                    ==> FlagWritten(NormalizeEntries(entries, camelize).entries[k])
  {
    if entries != [] {
      EntriesFlagged(entries[..|entries| - 1], camelize);
    }
  }

  /** The observed attributes are the keys whose descriptor is reflected, each once. */
  lemma ObservedAttributesMembers(d: Dict<Descriptor>)
    requires d.Valid()
    ensures forall k :: k in ObservedAttributes(d) <==> k in d.entries && Reflected(d.entries[k])
  {
    ObservedMembers(d.order, d.entries);
  }

  // ---------------------------------------------------------------------------
  // The normaliser over options objects on the heap.

  /** A prop options object supplied by the caller, or one the normaliser allocates. */
  class PropOptionsObject {
    var propType: TypeField
    var required: Option<bool>
    var defaultValue: Option<Value>
    var validator: Option<FunctionId>
    var attribute: Option<bool>

    constructor (o: Options)
      ensures View() == o
    {
      propType, required, defaultValue, validator, attribute
        := o.propType, o.required, o.defaultValue, o.validator, o.attribute;
    }

    /** `prop[PropFlags.attribute] = isAttributeType(getType(prop.type))` */
    method WriteFlag()
      modifies this
      ensures View() == WithFlag(old(View()))
    {
      attribute := Some(IsAttributeType(GetType(propType)));
    }

    /** The object's keys as a value. */
    function View(): Options
      reads this
    {
      Options(propType, required, defaultValue, validator, attribute)
    }
  }

  /** The options objects among the first `n` entries. */
  function EntryObjects(entries: seq<(string, PropOption<PropOptionsObject>)>, n: nat): set<PropOptionsObject> {
    set i | 0 <= i < n && i < |entries| && entries[i].1.ObjectOption? :: entries[i].1.obj
  }

  lemma EntryObjectsStep(entries: seq<(string, PropOption<PropOptionsObject>)>, i: nat)
    requires i < |entries|
    ensures EntryObjects(entries, i + 1)
         == EntryObjects(entries, i) + if entries[i].1.ObjectOption? then {entries[i].1.obj} else {}
  {
  }

  /** The caller's options objects, which the normaliser may write. */
  function UserObjects(decl: Declaration<PropOptionsObject>): set<PropOptionsObject> {
    if decl.Keyed? then EntryObjects(decl.entries, |decl.entries|) else {}
  }

  function OptionView(opt: PropOption<PropOptionsObject>): PropOption<Options>
    reads if opt.ObjectOption? then {opt.obj} else {}
  {
    match opt
    case NullOption => NullOption
    case TypeOption(t) => TypeOption(t)
    case ObjectOption(o) => ObjectOption(o.View())
  }

  function EntriesView(entries: seq<(string, PropOption<PropOptionsObject>)>): (r: seq<(string, PropOption<Options>)>)
    reads EntryObjects(entries, |entries|)
    ensures |r| == |entries|
    ensures forall i :: 0 <= i < |entries| ==> r[i] == (entries[i].0, OptionView(entries[i].1))
  {
    seq(|entries|, i requires 0 <= i < |entries| reads EntryObjects(entries, |entries|) =>
      (entries[i].0, OptionView(entries[i].1)))
  }

  /** The declaration with every options object replaced by its keys. */
  function DeclarationView(decl: Declaration<PropOptionsObject>): Declaration<Options>
    reads UserObjects(decl)
  {
    match decl
    case NameList(names) => NameList(names)
    case Nullish => Nullish
    case Keyed(entries) => Keyed(EntriesView(entries))
    case NotAnObject => NotAnObject
  }

  function DescriptorOf(p: PropOptionsObject?): Descriptor
    reads p
  {
    if p == null then None else Some(p.View())
  }

  /** The normalised dictionary with every descriptor object replaced by its keys. */
  function DictView(d: Dict<PropOptionsObject?>): (v: Dict<Descriptor>)
    reads d.entries.Values
  {
    Dict(d.order, map k | k in d.entries :: DescriptorOf(d.entries[k]))
  }

  /**
   * How a stored descriptor relates to the option it came from: `null` stays
   * `null`, an options object is stored itself (aliased, not copied), and a
   * constructor is wrapped in an object that is none of `users`.
   */
  predicate StoredFrom(p: PropOptionsObject?, opt: PropOption<PropOptionsObject>, users: set<PropOptionsObject>) {
    match opt
    case NullOption => p == null
    case ObjectOption(o) => p == o
    case TypeOption(_) => p != null && p !in users
  }

  /** `normalizePropsOptions(props)` */
  method NormalizePropsOptions(decl: Declaration<PropOptionsObject>, camelize: string -> string)
    returns (d: Dict<PropOptionsObject?>)
    modifies UserObjects(decl)
    ensures d.Valid()
    ensures DictView(d) == Normalize(old(DeclarationView(decl)), camelize)
    ensures forall o :: o in UserObjects(decl) ==> o.View() == WithFlag(old(o.View()))
    ensures decl.Keyed? ==> d.entries.Keys == Collect(decl.entries, camelize).entries.Keys
    ensures decl.Keyed? ==> forall k :: k in d.entries ==>
      StoredFrom(d.entries[k], Collect(decl.entries, camelize).entries[k], UserObjects(decl))
    ensures decl.NameList? ==> forall k :: k in d.entries ==> d.entries[k] != null && fresh(d.entries[k])
    ensures decl.NameList? ==> DistinctObjects(d.entries)
  {
    if decl.NameList? {
      d := NormalizeNameList(decl.names, camelize);
    } else if decl.Keyed? {
      d := NormalizeKeyed(decl.entries, camelize);
    } else {
      d := Empty();
    }
  }

  /** The array branch of `normalizePropsOptions`. */
  method NormalizeNameList(names: seq<string>, camelize: string -> string) returns (d: Dict<PropOptionsObject?>)
    ensures d.Valid()
    ensures DictView(d) == NormalizeNames(names, camelize)
    ensures forall k :: k in d.entries ==> d.entries[k] != null && fresh(d.entries[k])
    ensures DistinctObjects(d.entries)
  {
    d := Empty();
    DictViewIs(d, NormalizeNames([], camelize));
    for i := 0 to |names|
      invariant d.Valid()
      invariant DictView(d) == NormalizeNames(names[..i], camelize)
      invariant forall k :: k in d.entries ==> d.entries[k] != null && fresh(d.entries[k])
      invariant DistinctObjects(d.entries)
    {
      NamesStep(names, i, camelize);
      var prop := new PropOptionsObject(ListDescriptor);
      DictViewPut(d, camelize(names[i]), prop);
      ghost var prev := d;
      d := Put(d, camelize(names[i]), prop);
      forall k | k in d.entries ensures d.entries[k] != null && fresh(d.entries[k]) {
        if k != camelize(names[i]) {
          assert d.entries[k] == prev.entries[k];
        }
      }
      NewObjectDistinct(prev.entries, camelize(names[i]), prop);
    }
    assert names[..|names|] == names;
  }

  /** No two keys share one options object. */
  predicate DistinctObjects(entries: map<string, PropOptionsObject?>) {
    forall k, k' :: k in entries && k' in entries && k != k' ==> entries[k] != entries[k']
  }

  /** Storing an object that no key holds yet keeps the keys' objects distinct. */
  lemma NewObjectDistinct(entries: map<string, PropOptionsObject?>, key: string, p: PropOptionsObject?)
    requires DistinctObjects(entries)
    requires forall k :: k in entries ==> entries[k] != p
    ensures DistinctObjects(entries[key := p])
  {
  }

  /** Listing one more name is one more assignment. */
  lemma NamesStep(names: seq<string>, i: nat, camelize: string -> string)
    requires i < |names|
    ensures NormalizeNames(names[..i + 1], camelize)
         == Put(NormalizeNames(names[..i], camelize), camelize(names[i]), Some(ListDescriptor))
  {
    assert names[..i + 1][..i] == names[..i];
  }

  /** Viewing commutes with one assignment. */
  lemma DictViewPut(d: Dict<PropOptionsObject?>, k: string, p: PropOptionsObject?)
    ensures DictView(Put(d, k, p)) == Put(DictView(d), k, DescriptorOf(p))
  {
    DictViewIs(Put(d, k, p), Put(DictView(d), k, DescriptorOf(p)));
  }

  /** Every stored descriptor object already carries its written flag. */
  predicate AllFlagged(d: Dict<PropOptionsObject?>)
    reads d.entries.Values
  {
    forall k :: k in d.entries ==> FlagWritten(DescriptorOf(d.entries[k]))
  }

  /**
   * The object `normalized[key]` is set to: `null` for `null`, the caller's
   * own object for an options object, a new `{ type: opt }` otherwise.
   */
  method PropFor(opt: PropOption<PropOptionsObject>) returns (prop: PropOptionsObject?)
    ensures NormalizeOption(OptionView(opt)) == Flagged(DescriptorOf(prop))
    ensures opt.NullOption? ==> prop == null
    ensures opt.ObjectOption? ==> prop == opt.obj
    ensures opt.TypeOption? ==> prop != null && fresh(prop)
  {
    if opt.TypeOption? {
      prop := new PropOptionsObject(Options(Typed(opt.t), None, None, None, None));
    } else if opt.ObjectOption? {
      prop := opt.obj;
    } else {
      prop := null;
    }
  }

  /**
   * One turn of the keyed loop: `prop = normalized[key] = ...` followed by
   * `if (prop) prop[attribute] = ...`.
   */
  method StoreOption(d: Dict<PropOptionsObject?>, key: string, opt: PropOption<PropOptionsObject>,
                     ghost users: set<PropOptionsObject>)
    returns (r: Dict<PropOptionsObject?>)
    requires d.Valid() && AllFlagged(d)
    modifies if opt.ObjectOption? then {opt.obj} else {}
    ensures r.Valid() && AllFlagged(r)
    ensures key in r.entries && r == Put(d, key, r.entries[key])
    ensures DictView(r) == Put(old(DictView(d)), key, NormalizeOption(old(OptionView(opt))))
    ensures opt.TypeOption? ==> fresh(r.entries[key])
    ensures StoredFrom(r.entries[key], opt, users)
    ensures forall o :: o in users ==>
      o.View() == if opt.ObjectOption? && o == opt.obj then WithFlag(old(o.View())) else old(o.View())
  {
    var prop := PropFor(opt);
    r := Put(d, key, prop);
    FlagStored(d, r, key, prop);
    forall o | o in users
      ensures o.View() == if opt.ObjectOption? && o == opt.obj then WithFlag(old(o.View())) else old(o.View())
    {
      if o != prop {
        assert o.View() == old(o.View());
      }
    }
  }

  /** A descriptor with its flag written. */
  function Flagged(desc: Descriptor): Descriptor {
    if desc.Some? then Some(WithFlag(desc.value)) else None
  }

  /**
   * `if (prop) prop[PropFlags.attribute] = ...` once `prop` is stored under
   * `key`: the dictionary's other objects, which already carry their flag,
   * read as before even where one of them is `prop` itself.
   */
  method FlagStored(d: Dict<PropOptionsObject?>, r: Dict<PropOptionsObject?>, key: string, prop: PropOptionsObject?)
    requires d.Valid() && AllFlagged(d) && r == Put(d, key, prop)
    modifies prop
    ensures AllFlagged(r)
    ensures DictView(r) == Put(old(DictView(d)), key, Flagged(old(DescriptorOf(prop))))
    ensures prop != null ==> prop.View() == WithFlag(old(prop.View()))
  {
    ghost var before, pd := DictView(d), DescriptorOf(prop);
    assert forall k :: k in before.entries ==> FlagWritten(before.entries[k]);
    if prop != null {
      prop.WriteFlag();
    }
    ghost var spec := Put(before, key, Flagged(pd));
    forall k | k in r.entries
      ensures DescriptorOf(r.entries[k]) == spec.entries[k]
      ensures FlagWritten(DescriptorOf(r.entries[k]))
    {
      if k != key {
        var q := d.entries[k];
        if q == prop {
          assert pd == before.entries[k];
        } else {
          assert DescriptorOf(q) == before.entries[k];
        }
      }
    }
    DictViewIs(r, spec);
  }

  /** The view of a dictionary is determined key by key. */
  lemma DictViewIs(d: Dict<PropOptionsObject?>, spec: Dict<Descriptor>)
    requires d.order == spec.order && d.entries.Keys == spec.entries.Keys
    requires forall k :: k in d.entries ==> DescriptorOf(d.entries[k]) == spec.entries[k]
    ensures DictView(d) == spec
  {
    assert DictView(d).entries == spec.entries;
  }

  /** The keyed branch of `normalizePropsOptions`. */
  method NormalizeKeyed(entries: seq<(string, PropOption<PropOptionsObject>)>, camelize: string -> string)
    returns (d: Dict<PropOptionsObject?>)
    modifies EntryObjects(entries, |entries|)
    ensures d.Valid()
    ensures DictView(d) == NormalizeEntries(old(EntriesView(entries)), camelize)
    ensures forall o :: o in EntryObjects(entries, |entries|) ==> o.View() == WithFlag(old(o.View()))
    ensures StoredAll(d, entries, camelize, EntryObjects(entries, |entries|))
  {
    ghost var views := EntriesView(entries);
    ghost var users := EntryObjects(entries, |entries|);
    ghost var initial := map o | o in users :: o.View();
    d := Empty();
    KeyedStart(entries, views, users, initial, camelize);
    for i := 0 to |entries|
      invariant KeyedInvariant(entries, views, users, initial, d, i, camelize)
    {
      d := KeyedTurnStep(entries, views, users, initial, d, i, camelize);
    }
    KeyedEnd(entries, views, users, initial, d, camelize);
  }

  /** Before the first turn of the keyed loop. */
  lemma KeyedStart(entries: seq<(string, PropOption<PropOptionsObject>)>, views: seq<(string, PropOption<Options>)>,
                   users: set<PropOptionsObject>, initial: map<PropOptionsObject, Options>, camelize: string -> string)
    requires views == EntriesView(entries) && users == EntryObjects(entries, |entries|)
    requires initial == map o | o in users :: o.View()
    ensures KeyedInvariant(entries, views, users, initial, Empty(), 0, camelize)
  {
    forall j | 0 <= j < |entries| ensures views[j] == (entries[j].0, InitialView(entries[j].1, initial)) {
      if entries[j].1.ObjectOption? {
        assert entries[j].1.obj in users;
      }
    }
    DictViewIs(Empty(), NormalizeEntries([], camelize));
    assert entries[..0] == [] && views[..0] == [];
  }

  /** After the last turn of the keyed loop. */
  lemma KeyedEnd(entries: seq<(string, PropOption<PropOptionsObject>)>, views: seq<(string, PropOption<Options>)>,
                 users: set<PropOptionsObject>, initial: map<PropOptionsObject, Options>,
                 d: Dict<PropOptionsObject?>, camelize: string -> string)
    requires KeyedInvariant(entries, views, users, initial, d, |entries|, camelize)
    ensures d.Valid() && DictView(d) == NormalizeEntries(views, camelize)
    ensures StoredAll(d, entries, camelize, users)
    ensures forall o :: o in users ==> o.View() == WithFlag(initial[o])
  {
    assert entries[..|entries|] == entries;
    assert views[..|entries|] == views;
  }

  /** An option as it read before the loop, given the options objects' keys at that time. */
  function InitialView(opt: PropOption<PropOptionsObject>, initial: map<PropOptionsObject, Options>): PropOption<Options> {
    match opt
    case NullOption => NullOption
    case TypeOption(t) => TypeOption(t)
    case ObjectOption(o) => if o in initial then ObjectOption(initial[o]) else NullOption
  }

  /** One turn of the keyed loop. */
  method KeyedTurnStep(entries: seq<(string, PropOption<PropOptionsObject>)>, ghost views: seq<(string, PropOption<Options>)>,
                       ghost users: set<PropOptionsObject>, ghost initial: map<PropOptionsObject, Options>,
                       d: Dict<PropOptionsObject?>, i: nat, camelize: string -> string)
    returns (r: Dict<PropOptionsObject?>)
    requires i < |entries| && KeyedInvariant(entries, views, users, initial, d, i, camelize)
    modifies users
    ensures KeyedInvariant(entries, views, users, initial, r, i + 1, camelize)
  {
    var opt := entries[i].1;
    ghost var before := map o | o in users :: o.View();
    KeyedOptionView(entries, views, users, initial, before, i);
    KeyedTurn(entries, views, i, camelize);
    r := StoreOption(d, camelize(entries[i].0), opt, users);
    StoredStep(d, r, entries, i, camelize, users);
    ObjectsStep(entries, users, initial, before, i);
  }

  /** The option of turn `i`, read just before the turn, normalises as it would have before the loop. */
  lemma KeyedOptionView(entries: seq<(string, PropOption<PropOptionsObject>)>, views: seq<(string, PropOption<Options>)>,
                        users: set<PropOptionsObject>, initial: map<PropOptionsObject, Options>,
                        before: map<PropOptionsObject, Options>, i: nat)
    requires i < |entries| && KeyedSetting(entries, views, users, initial)
    requires ObjectsAfter(entries, users, initial, i)
    requires before == map o | o in users :: o.View()
    ensures NormalizeOption(OptionView(entries[i].1)) == NormalizeOption(views[i].1)
    ensures views[i].0 == entries[i].0
    ensures forall o :: o in users ==> before[o] == if o in EntryObjects(entries, i) then WithFlag(initial[o]) else initial[o]
  {
    var opt := entries[i].1;
    if opt.ObjectOption? {
      assert opt.obj in EntryObjects(entries, |entries|);
      FlagRewritten(initial[opt.obj], opt.obj.View());
    }
  }

  /** The options objects after turn `i`: the one of entry `i`, if any, now carries its flag. */
  lemma ObjectsStep(entries: seq<(string, PropOption<PropOptionsObject>)>, users: set<PropOptionsObject>,
                    initial: map<PropOptionsObject, Options>, before: map<PropOptionsObject, Options>, i: nat)
    requires i < |entries| && users <= initial.Keys && users <= before.Keys
    requires forall o :: o in users ==> before[o] == if o in EntryObjects(entries, i) then WithFlag(initial[o]) else initial[o]
    requires forall o :: o in users ==>
      o.View() == if entries[i].1.ObjectOption? && o == entries[i].1.obj then WithFlag(before[o]) else before[o]
    ensures ObjectsAfter(entries, users, initial, i + 1)
  {
    EntryObjectsStep(entries, i);
  }

  /** What the keyed loop keeps fixed: the entries as they read before the loop, and the caller's objects. */
  predicate KeyedSetting(entries: seq<(string, PropOption<PropOptionsObject>)>, views: seq<(string, PropOption<Options>)>,
                         users: set<PropOptionsObject>, initial: map<PropOptionsObject, Options>) {
    && |entries| == |views|
    && (forall j :: 0 <= j < |entries| ==> views[j] == (entries[j].0, InitialView(entries[j].1, initial)))
    && users == EntryObjects(entries, |entries|) && users <= initial.Keys
  }

  /** After `n` turns, the options objects of the first `n` entries carry their flag and the others are untouched. */
  predicate ObjectsAfter(entries: seq<(string, PropOption<PropOptionsObject>)>, users: set<PropOptionsObject>,
                         initial: map<PropOptionsObject, Options>, n: nat)
    reads users
  {
    forall o :: o in users ==> o in initial && o.View() == if o in EntryObjects(entries, n) then WithFlag(initial[o]) else initial[o]
  }

  /** What holds after `i` turns of the keyed loop. */
  predicate KeyedInvariant(entries: seq<(string, PropOption<PropOptionsObject>)>, views: seq<(string, PropOption<Options>)>,
                           users: set<PropOptionsObject>, initial: map<PropOptionsObject, Options>,
                           d: Dict<PropOptionsObject?>, i: nat, camelize: string -> string)
    reads d.entries.Values, users
  {
    && i <= |entries|
    && KeyedSetting(entries, views, users, initial)
    && d.Valid() && AllFlagged(d)
    && DictView(d) == NormalizeEntries(views[..i], camelize)
    && StoredAll(d, entries[..i], camelize, users)
    && ObjectsAfter(entries, users, initial, i)
  }

  /**
   * The dictionary holds, under exactly the keys of `entries`, what is
   * stored for the entry that stays under each key.
   */
  predicate StoredAll(d: Dict<PropOptionsObject?>, entries: seq<(string, PropOption<PropOptionsObject>)>,
                      camelize: string -> string, users: set<PropOptionsObject>) {
    StoredIn(d.entries, Collect(entries, camelize).entries, users)
  }

  /** Key by key, the stored objects relate to the options they came from. */
  predicate StoredIn(stored: map<string, PropOptionsObject?>, from: map<string, PropOption<PropOptionsObject>>,
                     users: set<PropOptionsObject>) {
    && stored.Keys == from.Keys
    && forall k :: k in stored ==> StoredFrom(stored[k], from[k], users)
  }

  /** Storing under one key what comes from the option assigned under it keeps the relation. */
  lemma StoredInPut(stored: map<string, PropOptionsObject?>, from: map<string, PropOption<PropOptionsObject>>,
                    users: set<PropOptionsObject>, key: string, p: PropOptionsObject?, opt: PropOption<PropOptionsObject>)
    requires StoredIn(stored, from, users) && StoredFrom(p, opt, users)
    ensures StoredIn(stored[key := p], from[key := opt], users)
  {
  }

  /** The keys and the stored objects after one turn of the keyed loop, on values. */
  lemma StoredStep(d: Dict<PropOptionsObject?>, r: Dict<PropOptionsObject?>, entries: seq<(string, PropOption<PropOptionsObject>)>,
                   i: nat, camelize: string -> string, users: set<PropOptionsObject>)
    requires i < |entries| && StoredAll(d, entries[..i], camelize, users)
    requires var key := camelize(entries[i].0);
      key in r.entries && r == Put(d, key, r.entries[key]) && StoredFrom(r.entries[key], entries[i].1, users)
    ensures StoredAll(r, entries[..i + 1], camelize, users)
  {
    var key := camelize(entries[i].0);
    CollectStep(entries, i, camelize);
    StoredInPut(d.entries, Collect(entries[..i], camelize).entries, users, key, r.entries[key], entries[i].1);
  }

  /** Collecting one more entry is one more assignment. */
  lemma CollectStep<O>(entries: seq<(string, O)>, i: nat, camelize: string -> string)
    requires i < |entries|
    ensures Collect(entries[..i + 1], camelize) == Put(Collect(entries[..i], camelize), camelize(entries[i].0), entries[i].1)
  {
    assert entries[..i + 1][..i] == entries[..i];
  }

  /** Writing the flag a second time changes nothing. */
  lemma FlagRewritten(v: Options, w: Options)
    requires w == v || w == WithFlag(v)
    ensures NormalizeOption(ObjectOption(w)) == NormalizeOption(ObjectOption(v))
  {
  }

  /** The values one turn of the keyed loop moves between. */
  lemma KeyedTurn(entries: seq<(string, PropOption<PropOptionsObject>)>, views: seq<(string, PropOption<Options>)>,
                  i: nat, camelize: string -> string)
    requires i < |entries| == |views| && views[i].0 == entries[i].0
    ensures NormalizeEntries(views[..i + 1], camelize)
         == Put(NormalizeEntries(views[..i], camelize), camelize(entries[i].0), NormalizeOption(views[i].1))
  {
    assert views[..i + 1][..i] == views[..i];
  }
}
