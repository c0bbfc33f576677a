/** Saving values and registered objects as plain data, restoring them, the timestamp passes of the msgpack serializer, and the packet forms. */
module Serialization {
  import opened Wire

  datatype Key = Name(name: string) | OtherKey(tag: int)

  /** One item of a dictionary; a dictionary is the sequence of its items in the order of insertion. */
  datatype Item = Item(key: Key, value: Value)

  /** The values of the language. A Date is a datetime; a Stamp is a Timestamp of msgpack; an Object has a class identifier and the state that its
      __getstate__ gives; an Alien is anything else. */
  datatype Value =
    | Nothing
    | Flag(flag: bool)
    | Number(number: int)
    | Float(float: real)
    | Text(text: string)
    | Binary(bytes: Bytes)
    | Date(date: int)
    | Stamp(stamp: int)
    | List(list: seq<Value>)
    | Tuple(tuple: seq<Value>)
    | Dict(items: seq<Item>)
    | Object(sid: string, state: seq<Item>)
    | Alien

  /** The registered identifiers, and which states the __setstate__ of each class takes. */
  datatype Registry = Registry(ids: set<string>, accepts: (string, seq<Item>) -> bool)

  const SID := "__laf_sid__"
  const SID_KEY := Name(SID)

  predicate Primitive(v: Value) {
    v.Nothing? || v.Flag? || v.Number? || v.Float? || v.Text? || v.Binary? || v.Date?
  }

  predicate HasKey(items: seq<Item>, k: Key) { exists i :: 0 <= i < |items| && items[i].key == k }

  /** d.pop(k): the items without k. */
  function Without(items: seq<Item>, k: Key): (r: seq<Item>)
    ensures |r| <= |items|
    ensures HasKey(items, k) ==> |r| < |items|
    ensures !HasKey(items, k) ==> r == items
  {
    if items == [] then []
    else if items[0].key == k then
      assert items[0].key == k;
      Without(items[1..], k)
    else
      HasKeyTail(items, k);
      [items[0]] + Without(items[1..], k)
  }

  /** What d.pop(SID, "") returns. */
  function Popped(items: seq<Item>): Value {
    if items == [] then Text("")
    else if items[0].key == SID_KEY then items[0].value
    else Popped(items[1..])
  }

  /** bool(v) */
  predicate Truthy(v: Value) {
    match v
    case Nothing => false
    case Flag(b) => b
    case Number(n) => n != 0
    case Float(x) => x != 0.0
    case Text(s) => s != ""
    case Binary(bs) => bs != []
    case List(l) => l != []
    case Tuple(l) => l != []
    case Dict(items) => items != []
    case _ => true
  }

  function Size(v: Value): (n: nat)
    ensures n >= 1
    decreases v
  {
    match v
    case List(l) => 1 + SizeAll(l)
    case Tuple(l) => 1 + SizeAll(l)
    case Dict(items) => 1 + SizeItems(items)
    case Object(_, state) => 1 + SizeItems(state)
    case _ => 1
  }

  function SizeAll(l: seq<Value>): nat
    decreases l
  {
    if l == [] then 0 else Size(l[0]) + SizeAll(l[1..])
  }

  function SizeItems(items: seq<Item>): nat
    decreases items
  {
    if items == [] then 0 else SizeItem(items[0]) + SizeItems(items[1..])
  }

  function SizeItem(i: Item): (n: nat)
    ensures n == Size(i.value)
    decreases i
  {
    Size(i.value)
  }

  lemma WithoutSmaller(items: seq<Item>, k: Key)
    ensures SizeItems(Without(items, k)) <= SizeItems(items)
  {
    if items != [] && items[0].key != k {
      WithoutSmaller(items[1..], k);
      assert Without(items, k)[1..] == Without(items[1..], k);
    } else if items != [] {
      WithoutSmaller(items[1..], k);
    }
  }

  // ---- save_state ----

  function Save(reg: Registry, v: Value): Option<Value>
    decreases Size(v), 0
  {
    if Primitive(v) then Some(v)
    else
      match v
      case List(l) => (match SaveAll(reg, l) case Some(l1) => Some(List(l1)) case None => None)
      case Tuple(l) => (match SaveAll(reg, l) case Some(l1) => Some(List(l1)) case None => None)
      case Dict(items) => (match SaveItems(reg, items) case Some(items1) => Some(Dict(items1)) case None => None)
      case Object(sid, state) =>
        if sid !in reg.ids || sid == "" then None
        else (match SaveObjectState(reg, state, sid) case Some(items1) => Some(Dict(items1)) case None => None)
      case _ => None
  }

  function SaveAll(reg: Registry, l: seq<Value>): (r: Option<seq<Value>>)
    ensures r.Some? ==> |r.value| == |l|
    decreases SizeAll(l), 1 + |l|
  {
    if l == [] then Some([])
    else
      match Save(reg, l[0])
      case None => None
      case Some(v) => (match SaveAll(reg, l[1..]) case None => None case Some(rest) => Some([v] + rest))
  }

  function SaveItems(reg: Registry, items: seq<Item>): (r: Option<seq<Item>>)
    ensures r.Some? ==> |r.value| == |items| && forall i :: 0 <= i < |items| ==> r.value[i].key == items[i].key && items[i].key.Name?
    decreases SizeItems(items), 1 + |items|
  {
    if items == [] then Some([])
    else if !items[0].key.Name? then None
    else
      match Save(reg, items[0].value)
      case None => None
      case Some(v) => (match SaveItems(reg, items[1..]) case None => None case Some(rest) => Some([Item(items[0].key, v)] + rest))
  }

  /** The state of an object with the identifier put under the reserved key: over an item that has this key, else at the end. */
  function SaveObjectState(reg: Registry, state: seq<Item>, sid: string): (r: Option<seq<Item>>)
    ensures r.Some? ==> HasKey(r.value, SID_KEY)
    ensures r.Some? && HasKey(state, SID_KEY) ==> |r.value| == |state|
    decreases SizeItems(state), 1 + |state|
  {
    if state == [] then
      var last := [Item(SID_KEY, Text(sid))];
      assert last[0].key == SID_KEY;
      Some(last)
    else if state[0].key == SID_KEY then
      (match SaveItems(reg, state[1..])
       case None => None
       case Some(rest) =>
         var all := [Item(SID_KEY, Text(sid))] + rest;
         assert all[0].key == SID_KEY;
         Some(all))
    else if !state[0].key.Name? then None
    else
      match Save(reg, state[0].value)
      case None => None
      case Some(v) =>
        match SaveObjectState(reg, state[1..], sid)
        case None => None
        case Some(rest) =>
          var all := [Item(state[0].key, v)] + rest;
          assert HasKey(all, SID_KEY) by {
            var i :| 0 <= i < |rest| && rest[i].key == SID_KEY;
            assert all[i + 1].key == SID_KEY;
          }
          HasKeyTail(state, SID_KEY);
          Some(all)
  }

  lemma HasKeyTail(items: seq<Item>, k: Key)
    requires items != [] && items[0].key != k
    ensures HasKey(items, k) <==> HasKey(items[1..], k)
  {
    if HasKey(items, k) {
      var i :| 0 <= i < |items| && items[i].key == k;
      assert items[1..][i - 1].key == k;
    }
    if HasKey(items[1..], k) {
      var i :| 0 <= i < |items[1..]| && items[1..][i].key == k;
      assert items[i + 1].key == k;
    }
  }

  // ---- restore_state ----

  function Restore(reg: Registry, v: Value): Option<Value>
    decreases Size(v), 0
  {
    if Primitive(v) then Some(v)
    else
      match v
      case List(l) => (match RestoreAll(reg, l) case Some(l1) => Some(List(l1)) case None => None)
      case Tuple(l) => (match RestoreAll(reg, l) case Some(l1) => Some(List(l1)) case None => None)
      case Dict(items) =>
        WithoutSmaller(items, SID_KEY);
        (match RestoreItems(reg, Without(items, SID_KEY))
         case None => None
         case Some(d) => Rebuild(reg, Popped(items), d))
      case _ => None
  }

  /** The object of a registered class, an error for an unknown one, or the dictionary itself. */
  function Rebuild(reg: Registry, sid: Value, d: seq<Item>): Option<Value> {
    if !Truthy(sid) then Some(Dict(d))
    else if sid.Text? && sid.text in reg.ids && reg.accepts(sid.text, d) then Some(Object(sid.text, d))
    else None
  }

  function RestoreAll(reg: Registry, l: seq<Value>): (r: Option<seq<Value>>)
    ensures r.Some? ==> |r.value| == |l|
    decreases SizeAll(l), 1 + |l|
  {
    if l == [] then Some([])
    else
      match Restore(reg, l[0])
      case None => None
      case Some(v) => (match RestoreAll(reg, l[1..]) case None => None case Some(rest) => Some([v] + rest))
  }

  function RestoreItems(reg: Registry, items: seq<Item>): (r: Option<seq<Item>>)
    ensures r.Some? ==> |r.value| == |items|
    decreases SizeItems(items), 1 + |items|
  {
    if items == [] then Some([])
    else if !items[0].key.Name? then None
    else
      match Restore(reg, items[0].value)
      case None => None
      case Some(v) => (match RestoreItems(reg, items[1..]) case None => None case Some(rest) => Some([Item(items[0].key, v)] + rest))
  }

  // ---- The round trip ----

  /** The value that comes back: tuples have become lists. */
  function Norm(v: Value): Value
    decreases Size(v), 0
  {
    match v
    case List(l) => List(NormAll(l))
    case Tuple(l) => List(NormAll(l))
    case Dict(items) => Dict(NormItems(items))
    case Object(sid, state) => Object(sid, NormItems(state))
    case _ => v
  }

  function NormAll(l: seq<Value>): (r: seq<Value>)
    ensures |r| == |l|
    decreases SizeAll(l), 1 + |l|
  {
    if l == [] then [] else [Norm(l[0])] + NormAll(l[1..])
  }

  function NormItems(items: seq<Item>): (r: seq<Item>)
    ensures |r| == |items|
    decreases SizeItems(items), 1 + |items|
  {
    if items == [] then [] else [Item(items[0].key, Norm(items[0].value))] + NormItems(items[1..])
  }

  /** Keys are strings and none is the reserved one, in dictionaries and in the states of objects; objects are of registered classes that take
      their state back; nothing else occurs. */
  ghost predicate Savable(reg: Registry, v: Value)
    decreases Size(v), 0
  {
    match v
    case List(l) => AllSavable(reg, l)
    case Tuple(l) => AllSavable(reg, l)
    case Dict(items) => ItemsSavable(reg, items)
    case Object(sid, state) => sid in reg.ids && sid != "" && ItemsSavable(reg, state) && reg.accepts(sid, NormItems(state))
    case _ => Primitive(v)
  }

  ghost predicate AllSavable(reg: Registry, l: seq<Value>)
    decreases SizeAll(l), 1 + |l|
  {
    l == [] || (Savable(reg, l[0]) && AllSavable(reg, l[1..]))
  }

  ghost predicate ItemsSavable(reg: Registry, items: seq<Item>)
    decreases SizeItems(items), 1 + |items|
  {
    items == [] || (items[0].key.Name? && items[0].key != SID_KEY && Savable(reg, items[0].value) && ItemsSavable(reg, items[1..]))
  }

  ghost predicate ComesBack(reg: Registry, v: Value) {
    var w := Save(reg, v);
    w.Some? && Restore(reg, w.value) == Some(Norm(v))
  }

  lemma {:induction false} SavableHasNoSid(reg: Registry, items: seq<Item>)
    requires ItemsSavable(reg, items)
    ensures !HasKey(items, SID_KEY)
    decreases items
  {
    if items != [] {
      SavableHasNoSid(reg, items[1..]);
      forall i | 0 <= i < |items| ensures items[i].key != SID_KEY {
        if i > 0 { assert items[i] == items[1..][i - 1]; }
      }
    }
  }

  lemma SameKeys(a: seq<Item>, b: seq<Item>, k: Key)
    requires |a| == |b| && forall i :: 0 <= i < |a| ==> a[i].key == b[i].key
    ensures HasKey(a, k) <==> HasKey(b, k)
  {
  }

  lemma {:induction false} PopNew(items: seq<Item>, v: Value)
    requires !HasKey(items, SID_KEY)
    ensures Without(items + [Item(SID_KEY, v)], SID_KEY) == items && Popped(items + [Item(SID_KEY, v)]) == v
    decreases items
  {
    var all := items + [Item(SID_KEY, v)];
    if items == [] {
      assert all[1..] == [] && all[0].key == SID_KEY;
    } else {
      assert items[0].key != SID_KEY;
      forall i | 0 <= i < |items[1..]| ensures items[1..][i].key != SID_KEY { assert items[1..][i] == items[i + 1]; }
      PopNew(items[1..], v);
      assert all[1..] == items[1..] + [Item(SID_KEY, v)];
    }
  }

  lemma {:induction false} PopNone(items: seq<Item>)
    requires !HasKey(items, SID_KEY)
    ensures Popped(items) == Text("")
    decreases items
  {
    if items != [] {
      assert items[0].key != SID_KEY;
      forall i | 0 <= i < |items[1..]| ensures items[1..][i].key != SID_KEY { assert items[1..][i] == items[i + 1]; }
      PopNone(items[1..]);
    }
  }

  /** Without the reserved key in the state, the identifier comes last. */
  lemma {:induction false} SidLast(reg: Registry, state: seq<Item>, sid: string)
    requires !HasKey(state, SID_KEY)
    ensures SaveObjectState(reg, state, sid) ==
            match SaveItems(reg, state) case None => None case Some(saved) => Some(saved + [Item(SID_KEY, Text(sid))])
    decreases state
  {
    if state != [] {
      assert state[0].key != SID_KEY;
      HasKeyTail(state, SID_KEY);
      SidLast(reg, state[1..], sid);
      if SaveItems(reg, state).Some? {
        var first, rest, last := Item(state[0].key, Save(reg, state[0].value).value), SaveItems(reg, state[1..]).value, Item(SID_KEY, Text(sid));
        assert [first] + (rest + [last]) == [first] + rest + [last];
      }
    } else {
      assert [] + [Item(SID_KEY, Text(sid))] == [Item(SID_KEY, Text(sid))];
    }
  }

  lemma DictBack(reg: Registry, items: seq<Item>, saved: seq<Item>)
    requires SaveItems(reg, items) == Some(saved) && !HasKey(items, SID_KEY) && RestoreItems(reg, saved) == Some(NormItems(items))
    ensures ComesBack(reg, Dict(items))
  {
    SameKeys(saved, items, SID_KEY);
    PopNone(saved);
  }

  lemma ObjectRestored(reg: Registry, sid: string, saved: seq<Item>)
    requires !HasKey(saved, SID_KEY)
    ensures Restore(reg, Dict(saved + [Item(SID_KEY, Text(sid))])) ==
            match RestoreItems(reg, saved) case None => None case Some(d) => Rebuild(reg, Text(sid), d)
  {
    PopNew(saved, Text(sid));
  }

  lemma ObjectSaved(reg: Registry, sid: string, state: seq<Item>, saved: seq<Item>)
    requires sid in reg.ids && sid != "" && SaveItems(reg, state) == Some(saved) && !HasKey(state, SID_KEY)
    ensures Save(reg, Object(sid, state)) == Some(Dict(saved + [Item(SID_KEY, Text(sid))]))
  {
    SidLast(reg, state, sid);
  }

  lemma ObjectBack(reg: Registry, sid: string, state: seq<Item>, saved: seq<Item>)
    requires sid in reg.ids && sid != "" && SaveItems(reg, state) == Some(saved) && !HasKey(state, SID_KEY)
    requires RestoreItems(reg, saved) == Some(NormItems(state)) && reg.accepts(sid, NormItems(state))
    ensures ComesBack(reg, Object(sid, state))
  {
    SameKeys(saved, state, SID_KEY);
    ObjectSaved(reg, sid, state, saved);
    ObjectRestored(reg, sid, saved);
  }

  lemma {:induction false} RoundTrip(reg: Registry, v: Value)
    requires Savable(reg, v)
    ensures ComesBack(reg, v)
    decreases Size(v), 0
  {
    match v
    case List(l) => RoundTripAll(reg, l);
    case Tuple(l) => RoundTripAll(reg, l);
    case Dict(items) =>
      RoundTripItems(reg, items);
      SavableHasNoSid(reg, items);
      DictBack(reg, items, SaveItems(reg, items).value);
    case Object(sid, state) =>
      RoundTripItems(reg, state);
      SavableHasNoSid(reg, state);
      ObjectBack(reg, sid, state, SaveItems(reg, state).value);
    case _ =>
  }

  lemma {:induction false} RoundTripAll(reg: Registry, l: seq<Value>)
    requires AllSavable(reg, l)
    ensures SaveAll(reg, l).Some? && RestoreAll(reg, SaveAll(reg, l).value) == Some(NormAll(l))
    decreases SizeAll(l), 1 + |l|
  {
    if l != [] {
      RoundTrip(reg, l[0]);
      RoundTripAll(reg, l[1..]);
      var saved := SaveAll(reg, l).value;
      assert saved[1..] == SaveAll(reg, l[1..]).value;
    }
  }

  lemma {:induction false} RoundTripItems(reg: Registry, items: seq<Item>)
    requires ItemsSavable(reg, items)
    ensures SaveItems(reg, items).Some? && RestoreItems(reg, SaveItems(reg, items).value) == Some(NormItems(items))
    decreases SizeItems(items), 1 + |items|
  {
    if items != [] {
      RoundTrip(reg, items[0].value);
      RoundTripItems(reg, items[1..]);
      var saved := SaveItems(reg, items).value;
      assert saved[1..] == SaveItems(reg, items[1..]).value;
    }
  }

  // ---- Nothing else comes back ----

  lemma {:induction false} OnlySavable(reg: Registry, v: Value)
    requires ComesBack(reg, v)
    ensures Savable(reg, v)
    decreases Size(v), 0
  {
    match v
    case List(l) => OnlySavableAll(reg, l);
    case Tuple(l) => OnlySavableAll(reg, l);
    case Dict(items) =>
      var saved := SaveItems(reg, items).value;
      SameKeys(saved, items, SID_KEY);
      assert !HasKey(saved, SID_KEY);
      OnlySavableItems(reg, items);
    case Object(sid, state) =>
      var all := SaveObjectState(reg, state, sid).value;
      assert !HasKey(state, SID_KEY);
      SidLast(reg, state, sid);
      SameKeys(SaveItems(reg, state).value, state, SID_KEY);
      ObjectRestored(reg, sid, SaveItems(reg, state).value);
      OnlySavableItems(reg, state);
    case _ =>
  }

  lemma {:induction false} OnlySavableAll(reg: Registry, l: seq<Value>)
    requires SaveAll(reg, l).Some? && RestoreAll(reg, SaveAll(reg, l).value) == Some(NormAll(l))
    ensures AllSavable(reg, l)
    decreases SizeAll(l), 1 + |l|
  {
    if l != [] {
      var saved, norm := SaveAll(reg, l).value, NormAll(l);
      assert saved[1..] == SaveAll(reg, l[1..]).value && norm[1..] == NormAll(l[1..]);
      var back := RestoreAll(reg, saved).value;
      assert back[0] == norm[0] && back[1..] == RestoreAll(reg, saved[1..]).value;
      OnlySavable(reg, l[0]);
      OnlySavableAll(reg, l[1..]);
    }
  }

  lemma {:induction false} OnlySavableItems(reg: Registry, items: seq<Item>)
    requires !HasKey(items, SID_KEY)
    requires SaveItems(reg, items).Some? && RestoreItems(reg, SaveItems(reg, items).value) == Some(NormItems(items))
    ensures ItemsSavable(reg, items)
    decreases SizeItems(items), 1 + |items|
  {
    if items != [] {
      var saved, norm := SaveItems(reg, items).value, NormItems(items);
      assert saved[1..] == SaveItems(reg, items[1..]).value && norm[1..] == NormItems(items[1..]);
      var back := RestoreItems(reg, saved).value;
      assert back[0] == norm[0] && back[1..] == RestoreItems(reg, saved[1..]).value;
      assert items[0].key != SID_KEY;
      forall i | 0 <= i < |items[1..]| ensures items[1..][i].key != SID_KEY { assert items[1..][i] == items[i + 1]; }
      OnlySavable(reg, items[0].value);
      OnlySavableItems(reg, items[1..]);
    }
  }

  /** A value comes back, with lists for its tuples, exactly when it is savable. */
  lemma ComesBackIffSavable(reg: Registry, v: Value)
    ensures ComesBack(reg, v) <==> Savable(reg, v)
  {
    if Savable(reg, v) { RoundTrip(reg, v); }
    if ComesBack(reg, v) { OnlySavable(reg, v); }
  }

  /** What becomes of a dictionary that holds the reserved key: it loses the key, becomes an object, or cannot be restored at all. */
  lemma ReservedKey(reg: Registry, sid: string)
    ensures var v := Dict([Item(SID_KEY, Text(sid))]);
      && Save(reg, v) == Some(v) && !ComesBack(reg, v)
      && Restore(reg, v) == (if sid == "" then Some(Dict([]))
                             else if sid in reg.ids && reg.accepts(sid, []) then Some(Object(sid, [])) else None)
  {
    var items := [Item(SID_KEY, Text(sid))];
    assert items[1..] == [] && items[0].key == SID_KEY;
    assert Save(reg, Text(sid)) == Some(Text(sid)) && SaveItems(reg, items[1..]) == Some([]);
    assert SaveItems(reg, items) == Some([Item(SID_KEY, Text(sid))] + []);
    assert [Item(SID_KEY, Text(sid))] + [] == items;
    assert Without(items[1..], SID_KEY) == [] && Without(items, SID_KEY) == [];
    assert !ItemsSavable(reg, items);
    ComesBackIffSavable(reg, Dict(items));
  }

  // ---- The timestamp passes of msgpack ----

  /** convert_datetime_to_msgpack_timestamp */
  function ToStamps(v: Value): Option<Value>
    decreases Size(v), 0
  {
    match v
    case Date(t) => Some(Stamp(t))
    case List(l) => (match ToStampsAll(l) case Some(l1) => Some(List(l1)) case None => None)
    case Tuple(l) => (match ToStampsAll(l) case Some(l1) => Some(List(l1)) case None => None)
    case Dict(items) => (match ToStampsItems(items) case Some(items1) => Some(Dict(items1)) case None => None)
    case _ => if Primitive(v) then Some(v) else None
  }

  function ToStampsAll(l: seq<Value>): Option<seq<Value>>
    decreases SizeAll(l), 1 + |l|
  {
    if l == [] then Some([])
    else
      match ToStamps(l[0])
      case None => None
      case Some(v) => (match ToStampsAll(l[1..]) case None => None case Some(rest) => Some([v] + rest))
  }

  function ToStampsItems(items: seq<Item>): Option<seq<Item>>
    decreases SizeItems(items), 1 + |items|
  {
    if items == [] then Some([])
    else
      match ToStamps(items[0].value)
      case None => None
      case Some(v) => (match ToStampsItems(items[1..]) case None => None case Some(rest) => Some([Item(items[0].key, v)] + rest))
  }

  /** convert_msgpack_timestamp_to_datetime */
  function FromStamps(v: Value): Option<Value>
    decreases Size(v), 0
  {
    match v
    case Stamp(t) => Some(Date(t))
    case Date(_) => None
    case List(l) => (match FromStampsAll(l) case Some(l1) => Some(List(l1)) case None => None)
    case Tuple(l) => (match FromStampsAll(l) case Some(l1) => Some(List(l1)) case None => None)
    case Dict(items) => (match FromStampsItems(items) case Some(items1) => Some(Dict(items1)) case None => None)
    case _ => if Primitive(v) then Some(v) else None
  }

  function FromStampsAll(l: seq<Value>): Option<seq<Value>>
    decreases SizeAll(l), 1 + |l|
  {
    if l == [] then Some([])
    else
      match FromStamps(l[0])
      case None => None
      case Some(v) => (match FromStampsAll(l[1..]) case None => None case Some(rest) => Some([v] + rest))
  }

  function FromStampsItems(items: seq<Item>): Option<seq<Item>>
    decreases SizeItems(items), 1 + |items|
  {
    if items == [] then Some([])
    else
      match FromStamps(items[0].value)
      case None => None
      case Some(v) => (match FromStampsItems(items[1..]) case None => None case Some(rest) => Some([Item(items[0].key, v)] + rest))
  }

  /** What save_state gives: no tuples, no timestamps, no objects. */
  ghost predicate PlainData(v: Value)
    decreases Size(v), 0
  {
    match v
    case List(l) => PlainAll(l)
    case Dict(items) => PlainItems(items)
    case _ => Primitive(v)
  }

  ghost predicate PlainAll(l: seq<Value>)
    decreases SizeAll(l), 1 + |l|
  {
    l == [] || (PlainData(l[0]) && PlainAll(l[1..]))
  }

  ghost predicate PlainItems(items: seq<Item>)
    decreases SizeItems(items), 1 + |items|
  {
    items == [] || (PlainData(items[0].value) && PlainItems(items[1..]))
  }

  lemma {:induction false} SavedIsPlain(reg: Registry, v: Value)
    requires Save(reg, v).Some?
    ensures PlainData(Save(reg, v).value)
    decreases Size(v), 0
  {
    match v
    case List(l) => SavedIsPlainAll(reg, l);
    case Tuple(l) => SavedIsPlainAll(reg, l);
    case Dict(items) => SavedIsPlainItems(reg, items);
    case Object(sid, state) => SavedIsPlainState(reg, state, sid);
    case _ =>
  }

  lemma {:induction false} SavedIsPlainAll(reg: Registry, l: seq<Value>)
    requires SaveAll(reg, l).Some?
    ensures PlainAll(SaveAll(reg, l).value)
    decreases SizeAll(l), 1 + |l|
  {
    if l != [] {
      SavedIsPlain(reg, l[0]);
      SavedIsPlainAll(reg, l[1..]);
      assert SaveAll(reg, l).value[1..] == SaveAll(reg, l[1..]).value;
    }
  }

  lemma {:induction false} SavedIsPlainItems(reg: Registry, items: seq<Item>)
    requires SaveItems(reg, items).Some?
    ensures PlainItems(SaveItems(reg, items).value)
    decreases SizeItems(items), 1 + |items|
  {
    if items != [] {
      SavedIsPlain(reg, items[0].value);
      SavedIsPlainItems(reg, items[1..]);
      assert SaveItems(reg, items).value[1..] == SaveItems(reg, items[1..]).value;
    }
  }

  lemma {:induction false} SavedIsPlainState(reg: Registry, state: seq<Item>, sid: string)
    requires SaveObjectState(reg, state, sid).Some?
    ensures PlainItems(SaveObjectState(reg, state, sid).value)
    decreases SizeItems(state), 1 + |state|
  {
    var all := SaveObjectState(reg, state, sid).value;
    if state == [] {
      assert all[0] == Item(SID_KEY, Text(sid)) && all[1..] == [];
      assert PlainData(all[0].value);
    } else if state[0].key == SID_KEY {
      SavedIsPlainItems(reg, state[1..]);
      assert all[1..] == SaveItems(reg, state[1..]).value;
    } else {
      SavedIsPlain(reg, state[0].value);
      SavedIsPlainState(reg, state[1..], sid);
      assert all[1..] == SaveObjectState(reg, state[1..], sid).value;
    }
  }

  /** What is plain and can be saved is saved as it is: only tuples and objects change their form. */
  lemma {:induction false} SavedAsIs(reg: Registry, v: Value)
    requires PlainData(v) && Savable(reg, v)
    ensures Save(reg, v) == Some(v)
    decreases Size(v), 0
  {
    match v
    case List(l) => SavedAsIsAll(reg, l);
    case Dict(items) => SavedAsIsItems(reg, items);
    case _ =>
  }

  lemma {:induction false} SavedAsIsAll(reg: Registry, l: seq<Value>)
    requires PlainAll(l) && AllSavable(reg, l)
    ensures SaveAll(reg, l) == Some(l)
    decreases SizeAll(l), 1 + |l|
  {
    if l != [] {
      SavedAsIs(reg, l[0]);
      SavedAsIsAll(reg, l[1..]);
      assert [l[0]] + l[1..] == l;
    }
  }

  lemma {:induction false} SavedAsIsItems(reg: Registry, items: seq<Item>)
    requires PlainItems(items) && ItemsSavable(reg, items)
    ensures SaveItems(reg, items) == Some(items)
    decreases SizeItems(items), 1 + |items|
  {
    if items != [] {
      SavedAsIs(reg, items[0].value);
      SavedAsIsItems(reg, items[1..]);
      assert [items[0]] + items[1..] == items;
    }
  }

  /** The second pass undoes the first on plain data. */
  lemma {:induction false} StampsUndone(v: Value)
    requires PlainData(v)
    ensures ToStamps(v).Some? && FromStamps(ToStamps(v).value) == Some(v)
    decreases Size(v), 0
  {
    match v
    case List(l) => StampsUndoneAll(l);
    case Dict(items) => StampsUndoneItems(items);
    case _ =>
  }

  lemma {:induction false} StampsUndoneAll(l: seq<Value>)
    requires PlainAll(l)
    ensures ToStampsAll(l).Some? && FromStampsAll(ToStampsAll(l).value) == Some(l)
    decreases SizeAll(l), 1 + |l|
  {
    if l != [] {
      StampsUndone(l[0]);
      StampsUndoneAll(l[1..]);
      assert ToStampsAll(l).value[1..] == ToStampsAll(l[1..]).value;
      assert [l[0]] + l[1..] == l;
    }
  }

  lemma {:induction false} StampsUndoneItems(items: seq<Item>)
    requires PlainItems(items)
    ensures ToStampsItems(items).Some? && FromStampsItems(ToStampsItems(items).value) == Some(items)
    decreases SizeItems(items), 1 + |items|
  {
    if items != [] {
      StampsUndone(items[0].value);
      StampsUndoneItems(items[1..]);
      assert ToStampsItems(items).value[1..] == ToStampsItems(items[1..]).value;
      assert [items[0]] + items[1..] == items;
    }
  }

  // ---- Serializers ----

  /** pickle carries the saved data as it is; msgpack carries it between the two passes. The byte encodings are taken as exact. */
  datatype Codec = Pickle | Msgpack

  function Pack(codec: Codec, reg: Registry, v: Value): Option<Value> {
    match Save(reg, v)
    case None => None
    case Some(w) => if codec.Msgpack? then ToStamps(w) else Some(w)
  }

  function Unpack(codec: Codec, reg: Registry, w: Value): Option<Value> {
    match (if codec.Msgpack? then FromStamps(w) else Some(w))
    case None => None
    case Some(d) => Restore(reg, d)
  }

  /** Through either serializer a value comes back, with lists for its tuples, exactly when it is savable. */
  lemma PackRoundTrip(codec: Codec, reg: Registry, v: Value)
    ensures (Pack(codec, reg, v).Some? && Unpack(codec, reg, Pack(codec, reg, v).value) == Some(Norm(v))) <==> Savable(reg, v)
    ensures Save(reg, v).Some? <==> Pack(codec, reg, v).Some?
  {
    ComesBackIffSavable(reg, v);
    if Save(reg, v).Some? {
      SavedIsPlain(reg, v);
      StampsUndone(Save(reg, v).value);
    }
  }

  // ---- Packets ----

  /** The fields of a packet are values of any kind; is_ok looks at their types. */
  datatype Request = Request(id: Value, methodName: Value, args: Value, kwargs: Value, header: Value, channel: Value, rawSocket: Value,
                             oneWay: Value)

  datatype Response = Response(id: Value, result: Value, exception: Value, channel: Value, rawSocket: Value)

  datatype Packet = Ask(request: Request) | Answer(response: Response)

  /** v == n: a float of the same value is equal, and so are False and True to 0 and 1. */
  predicate EqualsNumber(v: Value, n: nat) {
    v == Number(n) || v == Float(n as real) || (n <= 1 && v == Flag(n == 1))
  }

  predicate IsInt(v: Value) { v.Number? || v.Flag? }

  predicate RequestOk(r: Request) {
    && Truthy(r.methodName) && Truthy(r.id)
    && r.id.Binary? && r.methodName.Text? && |r.methodName.text| <= 1024 && |r.id.bytes| <= 64
    && (r.args.Nothing? || r.args.Tuple? || r.args.List?)
    && (r.kwargs.Nothing? || r.kwargs.Dict?)
    && (r.header.Nothing? || r.header.Dict?)
    && (r.channel.Nothing? || EqualsNumber(r.channel, 0) || IsInt(r.channel))
    && (r.rawSocket.Nothing? || r.rawSocket.Binary? || r.rawSocket.Text?)
    && r.oneWay.Flag?
  }

  predicate ResponseOk(r: Response) {
    && Truthy(r.id) && r.id.Binary? && |r.id.bytes| <= 64
    && (r.exception.Nothing? || (r.exception.Object? && r.exception.sid == "RpcRemoteException"))
    && IsInt(r.channel) && (r.channel.Number? ==> r.channel.number >= 0)
    && r.rawSocket.Binary?
  }

  /** An identifier may be given as bytes or as a string, which is encoded. */
  function IdBytes(id: Value, utf8: string -> Bytes): Option<Value> {
    match id
    case Binary(_) => Some(id)
    case Text(s) => Some(Binary(utf8(s)))
    case _ => None
  }

  function RequestList(id: Value, r: Request, version: nat): seq<Value> {
    [Number(1), id, r.methodName, r.args, r.kwargs, r.header, r.channel, r.rawSocket] + (if version >= 2 then [r.oneWay] else [])
  }

  function PackRequest(codec: Codec, reg: Registry, utf8: string -> Bytes, r: Request, version: nat): Option<Value> {
    match IdBytes(r.id, utf8)
    case None => None
    case Some(id) => if !r.rawSocket.Binary? then None else Pack(codec, reg, List(RequestList(id, r, version)))
  }

  function ResponseList(id: Value, r: Response): seq<Value> {
    [Number(2), id, r.result, r.exception, r.channel, r.rawSocket]
  }

  function PackResponse(codec: Codec, reg: Registry, utf8: string -> Bytes, r: Response): Option<Value> {
    match IdBytes(r.id, utf8)
    case None => None
    case Some(id) => if !r.rawSocket.Binary? then None else Pack(codec, reg, List(ResponseList(id, r)))
  }

  function UnpackPacket(codec: Codec, reg: Registry, w: Value): Option<Packet> {
    match Unpack(codec, reg, w)
    case None => None
    case Some(v) =>
      if !v.List? then None
      else
        var d := v.list;
        if 8 <= |d| <= 9 && EqualsNumber(d[0], 1) then
          var r := RequestOf(d);
          if RequestOk(r) then Some(Ask(r)) else None
        else if |d| == 6 && EqualsNumber(d[0], 2) then
          var r := Response(d[1], d[2], d[3], d[4], d[5]);
          if ResponseOk(r) then Some(Answer(r)) else None
        else None
  }

  /** The request as the other side sees it: below version 2 of the protocol the one-way flag is lost. */
  function Received(r: Request, id: Value, version: nat): Request {
    Request(id, Norm(r.methodName), Norm(r.args), Norm(r.kwargs), Norm(r.header), Norm(r.channel), Norm(r.rawSocket),
            if version >= 2 then Norm(r.oneWay) else Flag(false))
  }

  lemma NormAllAt(l: seq<Value>, i: nat)
    requires i < |l|
    ensures NormAll(l)[i] == Norm(l[i])
    decreases l
  {
    assert NormAll(l) == [Norm(l[0])] + NormAll(l[1..]);
    if i > 0 { NormAllAt(l[1..], i - 1); }
  }

  lemma AllSavableFrom(reg: Registry, l: seq<Value>)
    requires forall i :: 0 <= i < |l| ==> Savable(reg, l[i])
    ensures AllSavable(reg, l)
    decreases |l|
  {
    if l != [] {
      assert forall i :: 0 <= i < |l[1..]| ==> l[1..][i] == l[i + 1];
      AllSavableFrom(reg, l[1..]);
    }
  }

  lemma ListComesBack(codec: Codec, reg: Registry, l: seq<Value>)
    requires forall i :: 0 <= i < |l| ==> Savable(reg, l[i])
    ensures var w := Pack(codec, reg, List(l));
      w.Some? && Unpack(codec, reg, w.value) == Some(List(NormAll(l)))
    ensures forall i :: 0 <= i < |l| ==> NormAll(l)[i] == Norm(l[i])
  {
    AllSavableFrom(reg, l);
    PackRoundTrip(codec, reg, List(l));
    forall i | 0 <= i < |l| ensures NormAll(l)[i] == Norm(l[i]) { NormAllAt(l, i); }
  }

  function RequestOf(d: seq<Value>): Request
    requires 8 <= |d| <= 9
  {
    Request(d[1], d[2], d[3], d[4], d[5], d[6], d[7], if |d| >= 9 then d[8] else Flag(false))
  }

  lemma ReceivedFields(d: seq<Value>, r: Request, id: Value, version: nat)
    requires id.Binary? && |d| == |RequestList(id, r, version)|
    requires forall i :: 0 <= i < |d| ==> d[i] == Norm(RequestList(id, r, version)[i])
    ensures d[0] == Number(1) && RequestOf(d) == Received(r, id, version)
  {
    var l := RequestList(id, r, version);
    assert d[0] == Norm(l[0]) && d[1] == Norm(l[1]) && d[2] == Norm(l[2]) && d[3] == Norm(l[3]);
    assert d[4] == Norm(l[4]) && d[5] == Norm(l[5]) && d[6] == Norm(l[6]) && d[7] == Norm(l[7]);
    if version >= 2 { assert d[8] == Norm(l[8]); }
  }

  lemma UnpackRequest(codec: Codec, reg: Registry, w: Value, d: seq<Value>)
    requires Unpack(codec, reg, w) == Some(List(d)) && 8 <= |d| <= 9 && d[0] == Number(1)
    ensures UnpackPacket(codec, reg, w) == if RequestOk(RequestOf(d)) then Some(Ask(RequestOf(d))) else None
  {
  }

  /** A request whose fields can be saved is received as it was sent, up to its tuples and its flag below version 2, exactly when it is valid there;
      otherwise the other side rejects it. */
  lemma RequestRoundTrip(codec: Codec, reg: Registry, utf8: string -> Bytes, r: Request, version: nat, id: Value)
    requires IdBytes(r.id, utf8) == Some(id) && r.rawSocket.Binary?
    requires forall i :: 0 <= i < |RequestList(id, r, version)| ==> Savable(reg, RequestList(id, r, version)[i])
    ensures var w := PackRequest(codec, reg, utf8, r, version);
      && w.Some?
      && UnpackPacket(codec, reg, w.value) ==
           if RequestOk(Received(r, id, version)) then Some(Ask(Received(r, id, version))) else None
  {
    var l := RequestList(id, r, version);
    ListComesBack(codec, reg, l);
    ReceivedFields(NormAll(l), r, id, version);
    UnpackRequest(codec, reg, PackRequest(codec, reg, utf8, r, version).value, NormAll(l));
  }

  lemma ResponseRoundTrip(codec: Codec, reg: Registry, utf8: string -> Bytes, r: Response, id: Value)
    requires IdBytes(r.id, utf8) == Some(id) && r.rawSocket.Binary?
    requires forall i :: 0 <= i < |ResponseList(id, r)| ==> Savable(reg, ResponseList(id, r)[i])
    ensures var w := PackResponse(codec, reg, utf8, r);
      var r1 := Response(id, Norm(r.result), Norm(r.exception), Norm(r.channel), Norm(r.rawSocket));
      && w.Some?
      && UnpackPacket(codec, reg, w.value) == if ResponseOk(r1) then Some(Answer(r1)) else None
  {
    var l := ResponseList(id, r);
    ListComesBack(codec, reg, l);
    var d := NormAll(l);
    assert d[0] == Norm(l[0]) && d[1] == Norm(l[1]) && d[2] == Norm(l[2]);
    assert d[3] == Norm(l[3]) && d[4] == Norm(l[4]) && d[5] == Norm(l[5]);
  }

  // ---- The serializer object ----

  /** What a loop has done so far, before what is left to do. */
  function After<T>(done: seq<T>, rest: Option<seq<T>>): Option<seq<T>> {
    match rest
    case None => None
    case Some(l) => Some(done + l)
  }

  lemma AfterNothing<T>(rest: Option<seq<T>>)
    ensures After([], rest) == rest
  {
    if rest.Some? { assert [] + rest.value == rest.value; }
  }

  lemma AfterOne<T>(done: seq<T>, x: T, rest: Option<seq<T>>)
    ensures After(done, After([x], rest)) == After(done + [x], rest)
  {
    if rest.Some? { assert done + ([x] + rest.value) == done + [x] + rest.value; }
  }

  /** A class as the registry sees it. */
  datatype Class = Class(id: Option<string>, hasSetState: bool, hasGetState: bool)

  class BaseSerialization {
    var ids: set<string>
    const accepts: (string, seq<Item>) -> bool

    function Reg(): Registry
      reads this
    {
      Registry(ids, accepts)
    }

    constructor (accepts: (string, seq<Item>) -> bool)
      ensures ids == {} && this.accepts == accepts
    {
      ids := {};
      this.accepts := accepts;
    }

    /** Only a class with an identifier and both state methods can be registered. */
    method RegisterClass(cls: Class) returns (ok: bool)
      modifies this`ids
      ensures ok <==> cls.id.Some? && cls.hasSetState && cls.hasGetState
      ensures ids == if ok then old(ids) + {cls.id.value} else old(ids)
    {
      if cls.id.None? || !cls.hasSetState || !cls.hasGetState { return false; }
      ids := ids + {cls.id.value};
      ok := true;
    }

    method UnregisterClass(cls: Class) returns (ok: bool)
      modifies this`ids
      ensures ok <==> cls.id.Some? && cls.id.value in old(ids)
      ensures ids == if ok then old(ids) - {cls.id.value} else old(ids)
    {
      if cls.id.None? || cls.id.value !in ids { return false; }
      ids := ids - {cls.id.value};
      ok := true;
    }

    method SaveState(v: Value) returns (r: Option<Value>)
      ensures r == Save(Reg(), v)
      decreases Size(v), 0
    {
      if Primitive(v) { return Some(v); }
      match v
      case List(l) =>
        var l1 := SaveList(l);
        r := if l1.Some? then Some(List(l1.value)) else None;
      case Tuple(l) =>
        var l1 := SaveList(l);
        r := if l1.Some? then Some(List(l1.value)) else None;
      case Dict(items) =>
        var d := SaveDict(items);
        r := if d.Some? then Some(Dict(d.value)) else None;
      case Object(sid, state) =>
        if sid !in ids || sid == "" { return None; }
        var d := SaveObject(state, sid);
        r := if d.Some? then Some(Dict(d.value)) else None;
      case _ =>
        r := None;
    }

    method SaveList(l: seq<Value>) returns (r: Option<seq<Value>>)
      ensures r == SaveAll(Reg(), l)
      decreases SizeAll(l), 1 + |l|
    {
      var done: seq<Value> := [];
      assert l[0..] == l;
      AfterNothing(SaveAll(Reg(), l));
      for i := 0 to |l|
        invariant SaveAll(Reg(), l) == After(done, SaveAll(Reg(), l[i..]))
        invariant SizeAll(l[i..]) <= SizeAll(l)
      {
        assert l[i..][1..] == l[i + 1..];
        var v := SaveState(l[i]);
        if v.None? { return None; }
        AfterOne(done, v.value, SaveAll(Reg(), l[i + 1..]));
        done := done + [v.value];
      }
      assert l[|l|..] == [] && done + [] == done;
      r := Some(done);
    }

    method SaveDict(items: seq<Item>) returns (r: Option<seq<Item>>)
      ensures r == SaveItems(Reg(), items)
      decreases SizeItems(items), 1 + |items|
    {
      var done: seq<Item> := [];
      assert items[0..] == items;
      AfterNothing(SaveItems(Reg(), items));
      for i := 0 to |items|
        invariant SaveItems(Reg(), items) == After(done, SaveItems(Reg(), items[i..]))
        invariant SizeItems(items[i..]) <= SizeItems(items)
      {
        assert items[i..][1..] == items[i + 1..];
        if !items[i].key.Name? { return None; }
        var v := SaveState(items[i].value);
        if v.None? { return None; }
        var x := Item(items[i].key, v.value);
        AfterOne(done, x, SaveItems(Reg(), items[i + 1..]));
        done := done + [x];
      }
      assert items[|items|..] == [] && done + [] == done;
      r := Some(done);
    }

    /** The state of an object, with its identifier put under the reserved key. */
    method SaveObject(state: seq<Item>, sid: string) returns (r: Option<seq<Item>>)
      ensures r == SaveObjectState(Reg(), state, sid)
      decreases SizeItems(state), 1 + |state|
    {
      var done: seq<Item> := [];
      var last := Item(SID_KEY, Text(sid));
      assert state[0..] == state;
      AfterNothing(SaveObjectState(Reg(), state, sid));
      for i := 0 to |state|
        invariant SaveObjectState(Reg(), state, sid) ==
                  After(done, SaveObjectState(Reg(), state[i..], sid))
        invariant SizeItems(state[i..]) <= SizeItems(state)
      {
        assert state[i..][1..] == state[i + 1..];
        if state[i].key == SID_KEY {
          var rest := SaveDict(state[i + 1..]);
          if rest.None? { return None; }
          assert done + ([last] + rest.value) == done + [last] + rest.value;
          return Some(done + [last] + rest.value);
        }
        if !state[i].key.Name? { return None; }
        var v := SaveState(state[i].value);
        if v.None? { return None; }
        var x := Item(state[i].key, v.value);
        AfterOne(done, x, SaveObjectState(Reg(), state[i + 1..], sid));
        done := done + [x];
      }
      assert state[|state|..] == [];
      r := Some(done + [last]);
    }

    method RestoreState(v: Value) returns (r: Option<Value>)
      ensures r == Restore(Reg(), v)
      decreases Size(v), 0
    {
      if Primitive(v) { return Some(v); }
      match v
      case List(l) =>
        var l1 := RestoreList(l);
        r := if l1.Some? then Some(List(l1.value)) else None;
      case Tuple(l) =>
        var l1 := RestoreList(l);
        r := if l1.Some? then Some(List(l1.value)) else None;
      case Dict(items) =>
        WithoutSmaller(items, SID_KEY);
        var sid := Popped(items);
        var d := RestoreDict(Without(items, SID_KEY));
        if d.None? { return None; }
        if !Truthy(sid) { return Some(Dict(d.value)); }
        if sid.Text? && sid.text in ids {
          r := if accepts(sid.text, d.value) then Some(Object(sid.text, d.value)) else None;
        } else {
          r := None;
        }
      case _ =>
        r := None;
    }

    method RestoreList(l: seq<Value>) returns (r: Option<seq<Value>>)
      ensures r == RestoreAll(Reg(), l)
      decreases SizeAll(l), 1 + |l|
    {
      var done: seq<Value> := [];
      assert l[0..] == l;
      AfterNothing(RestoreAll(Reg(), l));
      for i := 0 to |l|
        invariant RestoreAll(Reg(), l) == After(done, RestoreAll(Reg(), l[i..]))
        invariant SizeAll(l[i..]) <= SizeAll(l)
      {
        assert l[i..][1..] == l[i + 1..];
        var v := RestoreState(l[i]);
        if v.None? { return None; }
        AfterOne(done, v.value, RestoreAll(Reg(), l[i + 1..]));
        done := done + [v.value];
      }
      assert l[|l|..] == [] && done + [] == done;
      r := Some(done);
    }

    method RestoreDict(items: seq<Item>) returns (r: Option<seq<Item>>)
      ensures r == RestoreItems(Reg(), items)
      decreases SizeItems(items), 1 + |items|
    {
      var done: seq<Item> := [];
      assert items[0..] == items;
      AfterNothing(RestoreItems(Reg(), items));
      for i := 0 to |items|
        invariant RestoreItems(Reg(), items) == After(done, RestoreItems(Reg(), items[i..]))
        invariant SizeItems(items[i..]) <= SizeItems(items)
      {
        assert items[i..][1..] == items[i + 1..];
        if !items[i].key.Name? { return None; }
        var v := RestoreState(items[i].value);
        if v.None? { return None; }
        var x := Item(items[i].key, v.value);
        AfterOne(done, x, RestoreItems(Reg(), items[i + 1..]));
        done := done + [x];
      }
      assert items[|items|..] == [] && done + [] == done;
      r := Some(done);
    }
  }
}
