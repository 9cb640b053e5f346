/** A loot pool entry: a node that may hold conditions, functions and child
    entries, each list created on first use, plus five optional scalars. */
module LootEntry {
  import opened Wrappers
  import opened Gson
  import opened Minecraft
  import opened LootCondition
  import opened LootFunction

  /** The order in which the serializer writes an entry's members. */
  const EntryOrder: seq<string> :=
    ["conditions", "functions", "type", "name", "children", "expand", "weight", "quality"]

  predicate Distinct(ks: seq<string>) {
    forall i, j :: 0 <= i < j < |ks| ==> ks[i] != ks[j]
  }

  /** The position of name `k` in `ks`: its first occurrence. */
  function Index(ks: seq<string>, k: string): (r: nat)
    requires k in ks
    ensures r < |ks| && ks[r] == k && k !in ks[..r]
  {
    if ks[0] == k then 0
    else
      var r := 1 + Index(ks[1..], k);
      assert ks[..r] == [ks[0]] + ks[1..][..r - 1];
      r
  }

  /** A fresh JsonObject that receives `add(ks[i], v)` for each present value
      `vs[i] == Some(v)`, in the order of `ks`, and nothing for an absent one. */
  function Members(ks: seq<string>, vs: seq<Option<Json>>): Fields
    requires |ks| == |vs|
  {
    if ks == [] then [] else Member(ks[0], vs[0]) + Members(ks[1..], vs[1..])
  }

  /** The names in `ks` whose value is present, in order. */
  function Present(ks: seq<string>, vs: seq<Option<Json>>): seq<string>
    requires |ks| == |vs|
  {
    if ks == [] then [] else (if vs[0].Some? then [ks[0]] else []) + Present(ks[1..], vs[1..])
  }

  lemma DistinctRest(ks: seq<string>)
    requires Distinct(ks) && ks != []
    ensures Distinct(ks[1..]) && ks[0] !in ks[1..]
  {
    forall i, j | 0 <= i < j < |ks| - 1 ensures ks[1..][i] != ks[1..][j] {
      assert ks[1..][i] == ks[i + 1] && ks[1..][j] == ks[j + 1];
    }
    forall j | 0 <= j < |ks| - 1 ensures ks[1..][j] != ks[0] {
      assert ks[1..][j] == ks[j + 1];
    }
  }

  /** The object's member names are exactly the names whose value is present,
      in the order given. */
  lemma {:induction false} MembersKeys(ks: seq<string>, vs: seq<Option<Json>>)
    requires |ks| == |vs|
    ensures Keys(Members(ks, vs)) == Present(ks, vs)
  {
    if ks != [] {
      MembersKeys(ks[1..], vs[1..]);
      KeysAppend(Member(ks[0], vs[0]), Members(ks[1..], vs[1..]));
    }
  }

  /** Each listed name holds its value when present and is missing when
      absent; a name outside the list is missing. */
  lemma {:induction false} MembersGet(ks: seq<string>, vs: seq<Option<Json>>, k: string)
    requires |ks| == |vs| && Distinct(ks)
    ensures Get(Members(ks, vs), k) == if k in ks then vs[Index(ks, k)] else None
  {
    if ks != [] {
      DistinctRest(ks);
      GetAppend(Member(ks[0], vs[0]), Members(ks[1..], vs[1..]), k);
      MembersGet(ks[1..], vs[1..], k);
    }
  }

  /** Past a first name that differs, a name sits one place further on than
      in the rest of the list. */
  lemma IndexRest(ks: seq<string>, k: string)
    requires ks != [] && k in ks[1..] && k != ks[0]
    ensures k in ks && Index(ks, k) == 1 + Index(ks[1..], k)
  {
    assert ks == [ks[0]] + ks[1..];
  }

  /** The names `ps` are taken from `ks` and keep its relative order. */
  ghost predicate InOrder(ks: seq<string>, ps: seq<string>) {
    (forall k :: k in ps ==> k in ks) &&
    forall p, q :: 0 <= p < q < |ps| ==> Index(ks, ps[p]) < Index(ks, ps[q])
  }

  /** Names in order after the first name of `ks` stay in order in `ks`,
      with or without that first name in front. */
  lemma InOrderCons(ks: seq<string>, rest: seq<string>)
    requires ks != [] && ks[0] !in ks[1..] && InOrder(ks[1..], rest)
    ensures InOrder(ks, rest) && InOrder(ks, [ks[0]] + rest)
  {
    forall k | k in rest
      ensures k in ks && Index(ks, k) == 1 + Index(ks[1..], k)
    {
      IndexRest(ks, k);
    }
    var ps := [ks[0]] + rest;
    forall p, q | 0 <= p < q < |ps|
      ensures Index(ks, ps[p]) < Index(ks, ps[q])
    {
      assert ps[q] == rest[q - 1];
      if p > 0 {
        assert ps[p] == rest[p - 1];
      }
    }
  }

  /** The names of the present members keep the relative order of `ks`, so no
      name appears twice. */
  lemma {:induction false} PresentOrdered(ks: seq<string>, vs: seq<Option<Json>>)
    requires |ks| == |vs| && Distinct(ks)
    ensures InOrder(ks, Present(ks, vs))
  {
    if ks != [] {
      DistinctRest(ks);
      PresentOrdered(ks[1..], vs[1..]);
      InOrderCons(ks, Present(ks[1..], vs[1..]));
    }
  }

  /** One step of `Members` taken from position `i`. */
  lemma MembersStep(ks: seq<string>, vs: seq<Option<Json>>, i: nat)
    requires |ks| == |vs| && i < |ks|
    ensures Members(ks[i..], vs[i..]) == Member(ks[i], vs[i]) + Members(ks[i + 1..], vs[i + 1..])
  {
    assert ks[i..][1..] == ks[i + 1..] && vs[i..][1..] == vs[i + 1..];
  }

  /** The members of a serialized entry: one optional member per field, in
      the order of the serializer's eight `if (src.x != null)` blocks. */
  function EntryFields(vs: seq<Option<Json>>): Fields
    requires |vs| == |EntryOrder|
  {
    Member("conditions", vs[0]) + (Member("functions", vs[1]) + (Member("type", vs[2]) +
    (Member("name", vs[3]) + (Member("children", vs[4]) + (Member("expand", vs[5]) +
    (Member("weight", vs[6]) + Member("quality", vs[7])))))))
  }

  /** Eight names in a row. */
  lemma MembersEight(ks: seq<string>, vs: seq<Option<Json>>)
    requires |ks| == |vs| == 8
    ensures Members(ks, vs) ==
      Member(ks[0], vs[0]) + (Member(ks[1], vs[1]) + (Member(ks[2], vs[2]) + (Member(ks[3], vs[3]) +
      (Member(ks[4], vs[4]) + (Member(ks[5], vs[5]) + (Member(ks[6], vs[6]) + Member(ks[7], vs[7])))))))
  {
    assert Members(ks[8..], vs[8..]) == [];
    MembersStep(ks, vs, 7);
    MembersStep(ks, vs, 6);
    MembersStep(ks, vs, 5);
    MembersStep(ks, vs, 4);
    MembersStep(ks, vs, 3);
    MembersStep(ks, vs, 2);
    MembersStep(ks, vs, 1);
    MembersStep(ks, vs, 0);
    assert ks[0..] == ks && vs[0..] == vs;
  }

  /** The entry's eight blocks are `Members` over `EntryOrder`. */
  lemma EntryFieldsMembers(vs: seq<Option<Json>>)
    requires |vs| == |EntryOrder|
    ensures EntryFields(vs) == Members(EntryOrder, vs)
  {
    MembersEight(EntryOrder, vs);
  }

  lemma EntryOrderDistinct()
    ensures Distinct(EntryOrder)
  {
  }

  /** In a list without repeats, the name at position `i` is found at `i`. */
  lemma IndexAt(ks: seq<string>, i: nat)
    requires Distinct(ks) && i < |ks|
    ensures Index(ks, ks[i]) == i
  {
    var r := Index(ks, ks[i]);
    assert ks[r] == ks[i];
  }

  /** The member values of a serialized entry, found by name; names outside
      `EntryOrder` are missing. */
  lemma EntryFieldsGet(vs: seq<Option<Json>>)
    requires |vs| == |EntryOrder|
    ensures forall i :: 0 <= i < |EntryOrder| ==> Get(EntryFields(vs), EntryOrder[i]) == vs[i]
    ensures forall k :: k !in EntryOrder ==> Get(EntryFields(vs), k) == None
  {
    EntryFieldsMembers(vs);
    EntryOrderDistinct();
    forall k {
      MembersGet(EntryOrder, vs, k);
    }
    forall i | 0 <= i < |EntryOrder| {
      IndexAt(EntryOrder, i);
    }
  }

  /** The names of a serialized entry: each at most once, all from
      `EntryOrder`, and in its order. */
  lemma EntryFieldsOrdered(vs: seq<Option<Json>>)
    requires |vs| == |EntryOrder|
    ensures var fs := EntryFields(vs);
      UniqueKeys(fs) &&
      (forall k :: k in Keys(fs) ==> k in EntryOrder) &&
      (forall p, q :: 0 <= p < q < |fs| ==> Index(EntryOrder, fs[p].0) < Index(EntryOrder, fs[q].0))
  {
    var fs := EntryFields(vs);
    EntryFieldsMembers(vs);
    EntryOrderDistinct();
    MembersKeys(EntryOrder, vs);
    PresentOrdered(EntryOrder, vs);
    forall p, q | 0 <= p < q < |fs|
      ensures Index(EntryOrder, fs[p].0) < Index(EntryOrder, fs[q].0)
    {
      assert fs[p].0 == Keys(fs)[p] && fs[q].0 == Keys(fs)[q];
    }
  }

  /** The serializations of a list of loot functions, element by element. */
  ghost function FunctionsJson(fs: seq<JFunction>): (r: seq<Json>)
    reads *
    ensures |r| == |fs|
    ensures forall i :: 0 <= i < |fs| ==> r[i] == fs[i].ToJson()
  {
    if fs == [] then [] else [fs[0].ToJson()] + FunctionsJson(fs[1..])
  }

  /** The entries of the given subtrees, as their footprints record them. */
  ghost function EntriesBelow(cs: set<JEntry>): set<JEntry>
    reads cs
  {
    set e, x | e in cs && x in e.Entries :: x
  }

  /** The loot functions of the given subtrees, as their footprints record them. */
  ghost function FunctionsBelow(cs: set<JEntry>): set<JFunction>
    reads cs
  {
    set e, f | e in cs && f in e.Functions :: f
  }

  class JEntry {
    var conditions: Option<seq<JCondition>>   // None: the list was never created
    var functions: Option<seq<JFunction>>
    var entryType: Option<Identifier>          // the `type` field
    var name: Option<Identifier>
    var children: Option<seq<JEntry>>
    var expand: Option<bool>
    var weight: Option<Int32>
    var quality: Option<Int32>

    /** This entry and every entry below it. */
    ghost var Entries: set<JEntry>
    /** The loot functions of this entry and of every entry below it. */
    ghost var Functions: set<JFunction>

    /** The footprints cover what the entry reaches, and the children form a
        tree-like structure: no entry is its own descendant. */
    ghost predicate Valid()
      reads this, Entries
      decreases Entries
    {
      this in Entries &&
      (functions.Some? ==> forall f :: f in functions.value ==> f in Functions) &&
      (children.Some? ==> forall e :: e in children.value ==>
        e in Entries && e.Entries <= Entries && this !in e.Entries &&
        e.Functions <= Functions && e.Valid())
    }

    /** Every list that exists has at least one element. */
    ghost predicate ListsNonEmpty()
      reads this
    {
      (conditions.Some? ==> |conditions.value| > 0) &&
      (functions.Some? ==> |functions.value| > 0) &&
      (children.Some? ==> |children.value| > 0)
    }

    /** An entry with only its type and name set, as `child(String)` builds. */
    ghost predicate IsItem(t: Identifier, n: Identifier)
      reads this
    {
      conditions.None? && functions.None? && children.None? &&
      entryType == Some(t) && name == Some(n) &&
      expand.None? && weight.None? && quality.None?
    }

    /** The value the serializer writes under each name of `EntryOrder`,
        None for a null field. */
    ghost function MemberValues(): (r: seq<Option<Json>>)
      requires Valid()
      reads *
      decreases Entries, 1
      ensures |r| == |EntryOrder|
    {
      [ if conditions.Some? then Some(JArr(ConditionsJson(conditions.value))) else None,
        if functions.Some? then Some(JArr(FunctionsJson(functions.value))) else None,
        if entryType.Some? then Some(JStr(entryType.value)) else None,
        if name.Some? then Some(JStr(name.value)) else None,
        if children.Some? then Some(JArr(ChildrenJson(|children.value|))) else None,
        if expand.Some? then Some(JBool(expand.value)) else None,
        if weight.Some? then Some(JNum(Int(weight.value))) else None,
        if quality.Some? then Some(JNum(Int(quality.value))) else None ]
    }

    /** The serializations of the first `n` children. */
    ghost function ChildrenJson(n: nat): (r: seq<Json>)
      requires Valid() && children.Some? && n <= |children.value|
      reads *
      decreases Entries, 0, n
      ensures |r| == n
    {
      if n == 0 then [] else ChildrenJson(n - 1) + [children.value[n - 1].ToJson()]
    }

    /** Element `i` of the children array is child `i` serialized. */
    lemma {:induction false} ChildrenJsonAt(n: nat)
      requires Valid() && children.Some? && n <= |children.value|
      ensures forall i :: 0 <= i < n ==> ChildrenJson(n)[i] == children.value[i].ToJson()
      decreases n
    {
      if n > 0 {
        ChildrenJsonAt(n - 1);
      }
    }

    /** The JSON the serializer produces. */
    ghost function ToJson(): Json
      requires Valid()
      reads *
      decreases Entries, 2
    {
      JObj(EntryFields(MemberValues()))
    }

    /** `JEntry()`: nothing set. */
    constructor ()
      ensures Valid() && ListsNonEmpty()
      ensures conditions == None && functions == None && children == None
      ensures entryType == None && name == None && expand == None && weight == None && quality == None
      ensures Entries == {this} && Functions == {}
      ensures ToJson() == JObj([])
    {
      conditions, functions, children := None, None, None;
      entryType, name, expand, weight, quality := None, None, None, None, None;
      Entries, Functions := {this}, {};
    }

    /** `JEntry(Identifier)`: only the type set. */
    constructor OfType(t: Identifier)
      ensures Valid() && ListsNonEmpty()
      ensures conditions == None && functions == None && children == None
      ensures entryType == Some(t) && name == None && expand == None && weight == None && quality == None
      ensures Entries == {this} && Functions == {}
      ensures ToJson() == JObj([("type", JStr(t))])
    {
      conditions, functions, children := None, None, None;
      entryType, name, expand, weight, quality := Some(t), None, None, None, None;
      Entries, Functions := {this}, {};
    }

    /** `condition(JCondition)`: creates the list on first use, then appends. */
    method Condition(c: JCondition)
      requires Valid()
      modifies this`conditions
      ensures Valid()
      ensures conditions == Some(old(conditions).GetOr([]) + [c])
      ensures old(ListsNonEmpty()) ==> ListsNonEmpty()
    {
      conditions := Some(conditions.GetOr([]) + [c]);
    }

    /** `function(JFunction)`: creates the list on first use, then appends. */
    method Function(f: JFunction)
      requires Valid()
      modifies this`functions, this`Functions
      ensures Valid()
      ensures functions == Some(old(functions).GetOr([]) + [f])
      ensures Functions == old(Functions) + {f}
      ensures old(ListsNonEmpty()) ==> ListsNonEmpty()
    {
      Functions := Functions + {f};
      functions := Some(functions.GetOr([]) + [f]);
    }

    /** `child(JEntry)`: creates the list on first use, then appends. The model
        requires the child not to contain this entry, so that serialization
        ends. */
    method Child(e: JEntry)
      requires Valid() && e.Valid() && this !in e.Entries
      modifies this`children, this`Entries, this`Functions
      ensures Valid()
      ensures children == Some(old(children).GetOr([]) + [e])
      ensures Entries == old(Entries) + e.Entries
      ensures Functions == old(Functions) + e.Functions
      ensures old(ListsNonEmpty()) ==> ListsNonEmpty()
    {
      Entries := Entries + e.Entries;
      Functions := Functions + e.Functions;
      children := Some(children.GetOr([]) + [e]);
    }

    /** The footprints again, after an entry below this one gained a function
        or a child of its own (the Java entry keeps no footprints, so this has
        no counterpart there). Applied to each ancestor from the changed entry
        upwards, it makes the whole tree `Valid` again, as long as it is still
        acyclic. */
    ghost method Refresh()
      requires children.Some? ==> forall e :: e in children.value ==> e.Valid() && this !in e.Entries
      modifies this`Entries, this`Functions
      ensures Valid()
      ensures Entries == {this} + EntriesBelow(set e | e in children.GetOr([]))
      ensures Functions == (set f | f in functions.GetOr([])) + FunctionsBelow(set e | e in children.GetOr([]))
    {
      var cs := set e | e in children.GetOr([]);
      forall e | e in cs ensures e != this {
        assert e in e.Entries;
      }
      var es, fs := EntriesBelow(cs), FunctionsBelow(cs);
      Entries := {this} + es;
      Functions := (set f | f in functions.GetOr([])) + fs;
      assert EntriesBelow(cs) == es && FunctionsBelow(cs) == fs;
      forall e | e in children.GetOr([])
        ensures e in Entries && e.Entries <= Entries && e.Functions <= Functions && e.Valid()
      {
        assert e in e.Entries;
      }
    }

    /** `type(Identifier)`; null clears the type. */
    method SetType(t: Option<Identifier>)
      requires Valid()
      modifies this`entryType
      ensures Valid() && entryType == t
    {
      entryType := t;
    }

    /** `type(String)`: the string is parsed first; when it is not a valid
        identifier the exception leaves the entry as it was. */
    method SetTypeString(game: Game, s: string) returns (o: Outcome<Error>)
      requires Valid()
      modifies this`entryType
      ensures Valid()
      ensures o.Pass? <==> game.parseIdentifier(s).Some?
      ensures o.Pass? ==> entryType == game.parseIdentifier(s)
      ensures o.Fail? ==> o.error == InvalidIdentifier(s) && entryType == old(entryType)
    {
      var t := game.parseIdentifier(s);
      if t.None? {
        return Fail(InvalidIdentifier(s));
      }
      SetType(t);
      o := Pass;
    }

    /** `name(Identifier)`; null clears the name. */
    method SetName(n: Option<Identifier>)
      requires Valid()
      modifies this`name
      ensures Valid() && name == n
    {
      name := n;
    }

    /** `name(String)`: the string is parsed first; when it is not a valid
        identifier the exception leaves the entry as it was. */
    method SetNameString(game: Game, s: string) returns (o: Outcome<Error>)
      requires Valid()
      modifies this`name
      ensures Valid()
      ensures o.Pass? <==> game.parseIdentifier(s).Some?
      ensures o.Pass? ==> name == game.parseIdentifier(s)
      ensures o.Fail? ==> o.error == InvalidIdentifier(s) && name == old(name)
    {
      var n := game.parseIdentifier(s);
      if n.None? {
        return Fail(InvalidIdentifier(s));
      }
      SetName(n);
      o := Pass;
    }

    /** `expand(Boolean)`; null clears it. */
    method SetExpand(b: Option<bool>)
      requires Valid()
      modifies this`expand
      ensures Valid() && expand == b
    {
      expand := b;
    }

    /** `weight(Integer)`; null clears it. */
    method SetWeight(w: Option<Int32>)
      requires Valid()
      modifies this`weight
      ensures Valid() && weight == w
    {
      weight := w;
    }

    /** `quality(Integer)`; null clears it. */
    method SetQuality(q: Option<Int32>)
      requires Valid()
      modifies this`quality
      ensures Valid() && quality == q
    {
      quality := q;
    }

    /** `child(String)`: creates the list on first use, then appends a new
        entry of type "minecraft:item" named `s`. The list is created before
        the name is parsed, so an invalid name leaves an existing, possibly
        empty, list and nothing appended. */
    method ChildNamed(game: Game, s: string) returns (o: Outcome<Error>)
      requires Valid()
      modifies this`children, this`Entries, this`Functions
      ensures Valid() && children.Some?
      ensures o.Pass? <==> game.parseIdentifier("minecraft:item").Some? && game.parseIdentifier(s).Some?
      ensures o.Fail? ==> children.value == old(children).GetOr([])
      ensures o.Pass? ==>
        var cs := children.value;
        |cs| == |old(children).GetOr([])| + 1 && cs[..|cs| - 1] == old(children).GetOr([]) &&
        fresh(cs[|cs| - 1]) && cs[|cs| - 1].Valid() &&
        cs[|cs| - 1].IsItem(game.parseIdentifier("minecraft:item").value, game.parseIdentifier(s).value)
    {
      children := Some(children.GetOr([]));
      var r := NamedItem(game, s);
      if r.Failure? {
        return Fail(r.error);
      }
      ghost var before := children.value;
      Child(r.value);
      assert children.value[..|children.value| - 1] == before;
      o := Pass;
    }

    /** The loot functions reachable from this entry: its own, and those
        of every entry below it. */
    ghost function Reach(): (r: set<JFunction>)
      requires Valid()
      reads this, Entries
      decreases Entries, 1
      ensures r <= Functions
    {
      (if functions.Some? then set f | f in functions.value else {}) +
      (if children.Some? then ReachChildren(|children.value|) else {})
    }

    /** The loot functions reachable from the first `n` children. */
    ghost function ReachChildren(n: nat): (r: set<JFunction>)
      requires Valid() && children.Some? && n <= |children.value|
      reads this, Entries
      decreases Entries, 0, n
      ensures r <= Functions
    {
      if n == 0 then {} else ReachChildren(n - 1) + children.value[n - 1].Reach()
    }

    /** Gson.serialize. Serializing a loot function stores the context in it
        and changes nothing else, and no serialization reads that field: the
        model hands the context to every reachable function first, then
        renders the entry. */
    method Serialize(ctx: Context) returns (j: Json)
      requires Valid()
      modifies Functions`context
      ensures Valid()
      ensures forall f :: f in Reach() ==> f.context == Some(ctx)
      ensures forall f :: f in Functions ==> f.context == old(f.context) || f.context == Some(ctx)
      ensures j == ToJson()
    {
      HandContext(ctx);
      j := Render();
    }

    /** Stores the context in each reachable loot function, as serializing
        them does. */
    method HandContext(ctx: Context)
      requires Valid()
      modifies Functions`context
      decreases Entries, 2
      ensures Valid()
      ensures forall f :: f in Reach() ==> f.context == Some(ctx)
      ensures forall f :: f in Functions ==> f.context == old(f.context) || f.context == Some(ctx)
    {
      HandOwn(ctx);
      if children.Some? {
        HandChildren(ctx, 0);
      }
    }

    /** The context handed to the entry's own loot functions, in order. */
    method HandOwn(ctx: Context)
      requires Valid()
      modifies Functions`context
      ensures Valid()
      ensures functions.Some? ==> forall f :: f in functions.value ==> f.context == Some(ctx)
      ensures forall f :: f in Functions ==> f.context == old(f.context) || f.context == Some(ctx)
    {
      if functions.Some? {
        var fs := functions.value;
        var i := 0;
        while i < |fs|
          invariant 0 <= i <= |fs|
          invariant forall f :: f in Functions ==> f.context == old(f.context) || f.context == Some(ctx)
          invariant forall k :: 0 <= k < i ==> fs[k].context == Some(ctx)
        {
          fs[i].context := Some(ctx);
          i := i + 1;
        }
      }
    }

    /** The context handed to every function reachable from the children
        from position `i` on, child by child; those reached before keep it. */
    method HandChildren(ctx: Context, i: nat)
      requires Valid() && children.Some? && i <= |children.value|
      requires forall f :: f in ReachChildren(i) ==> f.context == Some(ctx)
      modifies Functions`context
      decreases Entries, 1, |children.value| - i
      ensures Valid()
      ensures forall f :: f in ReachChildren(|children.value|) ==> f.context == Some(ctx)
      ensures forall f :: f in Functions ==> f.context == old(f.context) || f.context == Some(ctx)
    {
      if i < |children.value| {
        HandChild(ctx, i);
        HandChildren(ctx, i + 1);
      }
    }

    /** One step of HandChildren: the functions reachable from child `i` get
        the context, and those reached before keep it. */
    method HandChild(ctx: Context, i: nat)
      requires Valid() && children.Some? && i < |children.value|
      requires forall f :: f in ReachChildren(i) ==> f.context == Some(ctx)
      modifies Functions`context
      decreases Entries, 0
      ensures Valid()
      ensures forall f :: f in ReachChildren(i + 1) ==> f.context == Some(ctx)
      ensures forall f :: f in Functions ==> f.context == old(f.context) || f.context == Some(ctx)
    {
      ghost var done := ReachChildren(i);
      var e := children.value[i];
      e.HandContext(ctx);
      assert forall f :: f in done ==> f.context == Some(ctx);
      assert ReachChildren(i) == done;
      assert ReachChildren(i + 1) == done + e.Reach();
    }

    /** The object the serializer builds: each non-null field in the fixed
        order, the lists as arrays of their elements' serializations, the
        children recursively. Nothing is changed. */
    method Render() returns (j: Json)
      requires Valid()
      decreases Entries, 1
      ensures j == ToJson()
    {
      var tj := if entryType.Some? then Some(JStr(entryType.value)) else None;
      var nj := if name.Some? then Some(JStr(name.value)) else None;
      var ej := if expand.Some? then Some(JBool(expand.value)) else None;
      var wj := if weight.Some? then Some(JNum(Int(weight.value))) else None;
      var qj := if quality.Some? then Some(JNum(Int(quality.value))) else None;
      var cj, fj, chj := RenderLists();
      var vs := [cj, fj, tj, nj, chj, ej, wj, qj];
      assert vs == MemberValues();
      j := JObj(EntryFields(vs));
    }

    /** The three list members, each rendered element by element. */
    method RenderLists() returns (cj: Option<Json>, fj: Option<Json>, chj: Option<Json>)
      requires Valid()
      decreases Entries, 0, 1
      ensures cj == if conditions.Some? then Some(JArr(ConditionsJson(conditions.value))) else None
      ensures fj == if functions.Some? then Some(JArr(FunctionsJson(functions.value))) else None
      ensures chj == if children.Some? then Some(JArr(ChildrenJson(|children.value|))) else None
    {
      cj := RenderConditions();
      fj := RenderFunctions();
      chj := RenderChildren();
    }

    /** The "conditions" member: each condition serialized in order. */
    method RenderConditions() returns (r: Option<Json>)
      requires Valid()
      ensures r == if conditions.Some? then Some(JArr(ConditionsJson(conditions.value))) else None
    {
      r := None;
      if conditions.Some? {
        var items := SerializeConditions(conditions.value);
        r := Some(JArr(items));
      }
    }

    /** The "functions" member: each function rendered in order. */
    method RenderFunctions() returns (r: Option<Json>)
      requires Valid()
      ensures r == if functions.Some? then Some(JArr(FunctionsJson(functions.value))) else None
    {
      r := None;
      if functions.Some? {
        var fs := functions.value;
        var items: seq<Json> := [];
        var i := 0;
        while i < |fs|
          invariant 0 <= i <= |fs|
          invariant |items| == i && forall k :: 0 <= k < i ==> items[k] == fs[k].ToJson()
        {
          var f := fs[i].Render();
          items := items + [f];
          i := i + 1;
        }
        assert items == FunctionsJson(fs);
        r := Some(JArr(items));
      }
    }

    /** The "children" member: each child rendered in order. */
    method RenderChildren() returns (r: Option<Json>)
      requires Valid()
      decreases Entries, 0, 0
      ensures r == if children.Some? then Some(JArr(ChildrenJson(|children.value|))) else None
    {
      r := None;
      if children.Some? {
        var es := children.value;
        var items: seq<Json> := [];
        var i := 0;
        while i < |es|
          invariant 0 <= i <= |es|
          invariant items == ChildrenJson(i)
        {
          var e := es[i].Render();
          items := items + [e];
          i := i + 1;
        }
        r := Some(JArr(items));
      }
    }
  }

  /** `new JEntry().type("minecraft:item").name(s)`: a fresh entry with only
      its type and name set, or the exception of the parse that failed. */
  method NamedItem(game: Game, s: string) returns (r: Result<JEntry, Error>)
    ensures r.Success? <==> game.parseIdentifier("minecraft:item").Some? && game.parseIdentifier(s).Some?
    ensures r.Failure? ==>
      r.error == if game.parseIdentifier("minecraft:item").None? then InvalidIdentifier("minecraft:item")
                 else InvalidIdentifier(s)
    ensures r.Success? ==>
      var e := r.value;
      fresh(e) && e.Valid() && e.Entries == {e} && e.Functions == {} &&
      e.IsItem(game.parseIdentifier("minecraft:item").value, game.parseIdentifier(s).value)
  {
    var e := new JEntry();
    var o := e.SetTypeString(game, "minecraft:item");
    if o.Fail? {
      return Failure(o.error);
    }
    o := e.SetNameString(game, s);
    if o.Fail? {
      return Failure(o.error);
    }
    r := Success(e);
  }

  /** An entry built by `child(String)` serializes to its type and name and
      nothing else. */
  lemma ItemJson(e: JEntry, t: Identifier, n: Identifier)
    requires e.Valid() && e.IsItem(t, n)
    ensures e.ToJson() == JObj([("type", JStr(t)), ("name", JStr(n))])
  {
    assert e.MemberValues() == [None, None, Some(JStr(t)), Some(JStr(n)), None, None, None, None];
  }

  /** The serialized entry has a member exactly for each non-null field, no
      name twice, and the members in the fixed order conditions, functions,
      type, name, children, expand, weight, quality. */
  lemma EntryOrdered(e: JEntry)
    requires e.Valid()
    ensures var fs := e.ToJson().fields;
      UniqueKeys(fs) &&
      (forall k :: k in Keys(fs) ==> k in EntryOrder) &&
      (forall p, q :: 0 <= p < q < |fs| ==> Index(EntryOrder, fs[p].0) < Index(EntryOrder, fs[q].0))
  {
    EntryFieldsOrdered(e.MemberValues());
  }

  /** What each member of the serialized entry holds: a member is present
      exactly when its field is non-null, the lists become arrays of their
      elements' serializations in order (children recursively), and no other
      name is present. */
  lemma EntryMembers(e: JEntry)
    requires e.Valid()
    ensures var fs := e.ToJson().fields;
      Get(fs, "conditions") ==
        (if e.conditions.Some? then Some(JArr(ConditionsJson(e.conditions.value))) else None) &&
      Get(fs, "functions") ==
        (if e.functions.Some? then Some(JArr(FunctionsJson(e.functions.value))) else None) &&
      Get(fs, "type") == (if e.entryType.Some? then Some(JStr(e.entryType.value)) else None) &&
      Get(fs, "name") == (if e.name.Some? then Some(JStr(e.name.value)) else None) &&
      Get(fs, "expand") == (if e.expand.Some? then Some(JBool(e.expand.value)) else None) &&
      Get(fs, "weight") == (if e.weight.Some? then Some(JNum(Int(e.weight.value))) else None) &&
      Get(fs, "quality") == (if e.quality.Some? then Some(JNum(Int(e.quality.value))) else None) &&
      (forall k :: k !in EntryOrder ==> Get(fs, k) == None)
    ensures e.children.None? <==> Get(e.ToJson().fields, "children").None?
    ensures e.children.Some? ==>
      var cj := Get(e.ToJson().fields, "children").value;
      cj.JArr? && |cj.items| == |e.children.value| &&
      forall i :: 0 <= i < |cj.items| ==> cj.items[i] == e.children.value[i].ToJson()
  {
    var vs := e.MemberValues();
    EntryFieldsGet(vs);
    if e.children.Some? {
      e.ChildrenJsonAt(|e.children.value|);
    }
    assert EntryOrder[0] == "conditions" && EntryOrder[1] == "functions" && EntryOrder[2] == "type";
    assert EntryOrder[3] == "name" && EntryOrder[4] == "children" && EntryOrder[5] == "expand";
    assert EntryOrder[6] == "weight" && EntryOrder[7] == "quality";
  }

  /** As long as the lists were only created by appending to them, every
      array the serializer writes has at least one element. */
  lemma EmittedListsNonEmpty(e: JEntry)
    requires e.Valid() && e.ListsNonEmpty()
    ensures forall k :: k in ["conditions", "functions", "children"] && Get(e.ToJson().fields, k).Some? ==>
      Get(e.ToJson().fields, k).value.JArr? && |Get(e.ToJson().fields, k).value.items| > 0
  {
    EntryMembers(e);
  }
}
