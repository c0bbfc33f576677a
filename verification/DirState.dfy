/** The state that carries an RpcDir object through serialization. */
module DirState {
  import opened Wire
  import opened DirTransfer

  /** The values of a QVariantMap that occur here. */
  datatype Variant =
    | Text(text: string)
    | Number(number: Size)
    | Date(date: int)
    | Flag(flag: bool)
    | List(list: seq<Variant>)
    | Map(entries: map<string, Variant>)

  type State = map<string, Variant>

  datatype Dir = Dir(name: string, size: Size, times: Times, entries: seq<Entry>)

  /** A date is put in only when it is valid. */
  function WithDate(state: State, key: string, date: Option<int>): State {
    if date.Some? then state[key := Date(date.value)] else state
  }

  function WithTimes(state: State, times: Times): State {
    WithDate(WithDate(WithDate(state, "ctime", times.created), "mtime", times.modified), "atime", times.accessed)
  }

  function SavedEntry(e: Entry): State {
    WithTimes(map["path" := Text(e.path), "size" := Number(e.size)], e.times)["isdir" := Flag(e.isdir)]
  }

  function SavedEntries(entries: seq<Entry>): seq<Variant> {
    if entries == [] then [] else SavedEntries(entries[..|entries| - 1]) + [Map(SavedEntry(entries[|entries| - 1]))]
  }

  function Saved(d: Dir): State {
    WithTimes(map["name" := Text(d.name), "size" := Number(d.size)], d.times)["entries" := List(SavedEntries(d.entries))]
  }

  // A missing key, or a value of another kind, reads as the default.

  function TextAt(state: State, key: string): string {
    if key in state && state[key].Text? then state[key].text else ""
  }

  function NumberAt(state: State, key: string): Option<Size> {
    if key in state && state[key].Number? then Some(state[key].number) else None
  }

  function DateAt(state: State, key: string): Option<int> {
    if key in state && state[key].Date? then Some(state[key].date) else None
  }

  function FlagAt(state: State, key: string): bool { key in state && state[key].Flag? && state[key].flag }

  function ListAt(state: State, key: string): seq<Variant> {
    if key in state && state[key].List? then state[key].list else []
  }

  function TimesAt(state: State): Times {
    Times(DateAt(state, "ctime"), DateAt(state, "mtime"), DateAt(state, "atime"))
  }

  /** One entry object: it must be a map that is not empty, and have a size. */
  function RestoredEntry(v: Variant): Option<Entry> {
    if !v.Map? || v.entries == map[] then None
    else
      match NumberAt(v.entries, "size")
      case None => None
      case Some(size) => Some(Entry(TextAt(v.entries, "path"), size, FlagAt(v.entries, "isdir"), TimesAt(v.entries)))
  }

  function RestoredEntries(list: seq<Variant>): Option<seq<Entry>> {
    if list == [] then Some([])
    else
      match RestoredEntries(list[..|list| - 1])
      case None => None
      case Some(before) =>
        match RestoredEntry(list[|list| - 1])
        case None => None
        case Some(e) => Some(before + [e])
  }

  function Restored(state: State): Option<Dir> {
    var name, size := TextAt(state, "name"), NumberAt(state, "size");
    if size.None? || name == "" then None
    else
      match RestoredEntries(ListAt(state, "entries"))
      case None => None
      case Some(entries) => Some(Dir(name, size.value, TimesAt(state), entries))
  }

  lemma EntryRoundTrip(e: Entry)
    ensures RestoredEntry(Map(SavedEntry(e))) == Some(e)
  {
    var s := SavedEntry(e);
    assert "size" in s;
    assert TimesAt(s) == e.times;
  }

  lemma {:induction false} EntriesRoundTrip(entries: seq<Entry>)
    ensures RestoredEntries(SavedEntries(entries)) == Some(entries)
  {
    if entries != [] {
      var init, last := entries[..|entries| - 1], entries[|entries| - 1];
      EntriesRoundTrip(init);
      EntryRoundTrip(last);
      var saved := SavedEntries(entries);
      assert saved[..|saved| - 1] == SavedEntries(init);
      assert init + [last] == entries;
    }
  }

  predicate DateKey(state: State, key: string, date: Option<int>) {
    if date.Some? then key in state && state[key] == Date(date.value) else key !in state
  }

  /** What the saved state of an entry holds, and under which keys. */
  predicate EntryForm(v: Variant, e: Entry) {
    && v.Map? && v.entries.Keys - {"ctime", "mtime", "atime"} == {"path", "size", "isdir"}
    && v.entries["path"] == Text(e.path) && v.entries["size"] == Number(e.size) && v.entries["isdir"] == Flag(e.isdir)
    && DateKey(v.entries, "ctime", e.times.created) && DateKey(v.entries, "mtime", e.times.modified) && DateKey(v.entries, "atime", e.times.accessed)
  }

  lemma SavedEntryForm(e: Entry)
    ensures EntryForm(Map(SavedEntry(e)), e)
  {
    var s := SavedEntry(e);
    assert s.Keys - {"ctime", "mtime", "atime"} == {"path", "size", "isdir"};
  }

  lemma {:induction false} SavedEntriesForm(entries: seq<Entry>)
    ensures |SavedEntries(entries)| == |entries| && forall i :: 0 <= i < |entries| ==> EntryForm(SavedEntries(entries)[i], entries[i])
  {
    if entries != [] {
      SavedEntriesForm(entries[..|entries| - 1]);
      SavedEntryForm(entries[|entries| - 1]);
    }
  }

  /** The keys of the saved state, which the other implementation reads: dates only where they are valid, the entries in their order. */
  lemma SavedForm(d: Dir)
    ensures var s := Saved(d);
      && s.Keys - {"ctime", "mtime", "atime"} == {"name", "size", "entries"}
      && s["name"] == Text(d.name) && s["size"] == Number(d.size)
      && DateKey(s, "ctime", d.times.created) && DateKey(s, "mtime", d.times.modified) && DateKey(s, "atime", d.times.accessed)
      && s["entries"].List? && |s["entries"].list| == |d.entries|
      && forall i :: 0 <= i < |d.entries| ==> EntryForm(s["entries"].list[i], d.entries[i])
  {
    SavedEntriesForm(d.entries);
    assert Saved(d).Keys - {"ctime", "mtime", "atime"} == {"name", "size", "entries"};
  }

  lemma DatesRead(s: State, times: Times)
    requires DateKey(s, "ctime", times.created) && DateKey(s, "mtime", times.modified) && DateKey(s, "atime", times.accessed)
    ensures TimesAt(s) == times
  {
  }

  /** The object comes back whole, and that exactly when it has a name. */
  lemma RoundTrip(d: Dir)
    ensures Restored(Saved(d)) == Some(d) <==> d.name != ""
  {
    EntriesRoundTrip(d.entries);
    SavedForm(d);
    DatesRead(Saved(d), d.times);
    assert ListAt(Saved(d), "entries") == SavedEntries(d.entries);
  }

  class RpcDirState {
    var name: string
    var size: Size
    var times: Times
    var entries: seq<Entry>

    function Value(): Dir
      reads this
    {
      Dir(name, size, times, entries)
    }

    constructor (d: Dir)
      ensures Value() == d
    {
      name, size, times, entries := d.name, d.size, d.times, d.entries;
    }

    method SaveState() returns (state: State)
      ensures state == Saved(Value())
    {
      state := map["name" := Text(name), "size" := Number(size)];
      state := WithTimes(state, times);
      var list: seq<Variant> := [];
      for i := 0 to |entries|
        invariant list == SavedEntries(entries[..i])
      {
        assert entries[..i + 1][..i] == entries[..i];
        list := list + [Map(SavedEntry(entries[i]))];
      }
      assert entries[..|entries|] == entries;
      state := state["entries" := List(list)];
    }

    /** Fields are set while the state is read, so a failure leaves some of them changed. */
    method RestoreState(state: State) returns (ok: bool)
      modifies this
      ensures ok <==> Restored(state).Some?
      ensures ok ==> Value() == Restored(state).value
    {
      name := TextAt(state, "name");
      var n := NumberAt(state, "size");
      size := if n.Some? then n.value else 0;
      if n.None? || name == "" { return false; }
      times := TimesAt(state);
      var list := ListAt(state, "entries");
      entries := [];
      for i := 0 to |list|
        invariant RestoredEntries(list[..i]) == Some(entries)
        invariant name == TextAt(state, "name") && size == n.value && times == TimesAt(state)
      {
        assert list[..i + 1][..i] == list[..i];
        var e := RestoredEntry(list[i]);
        if e.None? {
          NoneStays(list, i + 1);
          return false;
        }
        entries := entries + [e.value];
      }
      assert list[..|list|] == list;
      ok := true;
    }
  }

  lemma {:induction false} NoneStays(list: seq<Variant>, i: nat)
    requires i <= |list| && RestoredEntries(list[..i]).None?
    ensures RestoredEntries(list).None?
    decreases |list|
  {
    if i < |list| {
      assert list[..|list| - 1][..i] == list[..i];
      NoneStays(list[..|list| - 1], i);
    } else {
      assert list[..i] == list;
    }
  }
}
