/**
 * TweakSettings: a store of named string settings, each with an optional
 * listener that is called with the new value whenever the setting is set.
 * The store is an ordered map (names in `std::string` order), modelled as a
 * list of entries kept strictly sorted by name. Ints and bools are stored as
 * their text; a listener of a typed setting converts the text back.
 */
module TweakSettings {
  import opened Wrappers
  import opened Text

  /** A listener, identified by its owner; the string/int/bool overloads of `setListener` wrap it differently. */
  datatype Listener = NoListener | OnString(id: int) | OnInt(id: int) | OnBool(id: int)

  datatype Entry = Entry(name: string, value: string, listener: Listener)

  /** What a listener is called with, or the warning logged when the conversion it needs throws. */
  datatype Notification = StringCall(id: int, s: string) | IntCall(id: int, n: int) | BoolCall(id: int, b: bool) | Warning

  /** One `Setting` element of a settings document: its Name and Value attributes, each possibly missing. */
  datatype SettingElement = SettingElement(name: Option<string>, value: Option<string>)

  /** A stream given to `loadSettings`: its size, and the `Setting` children of its `TweakSettings` root, if it has one. */
  datatype Document = Document(size: nat, root: Option<seq<SettingElement>>)

  const INVALID_STREAM := "Invalid stream"
  const MISSING_ROOT := "XML missing root element 'TweakSettings'"
  const NOT_INITIALIZED := "TweakSettings has not been initialized"

  // ---------------------------------------------------------------------
  // Names in map order.

  /** `std::string`'s `operator<`: lexicographic by character, a proper prefix first. */
  predicate Below(a: string, b: string)
  {
    if a == [] then b != []
    else if b == [] then false
    else if a[0] != b[0] then a[0] < b[0]
    else Below(a[1..], b[1..])
  }

  lemma {:induction false} BelowIrreflexive(a: string)
    ensures !Below(a, a)
  {
    if a != [] {
      BelowIrreflexive(a[1..]);
    }
  }

  lemma {:induction false} BelowTransitive(a: string, b: string, c: string)
    requires Below(a, b) && Below(b, c)
    ensures Below(a, c)
  {
    if a != [] && b != [] && c != [] && a[0] == b[0] && b[0] == c[0] {
      BelowTransitive(a[1..], b[1..], c[1..]);
    }
  }

  lemma {:induction false} BelowTotal(a: string, b: string)
    requires a != b
    ensures Below(a, b) || Below(b, a)
  {
    if a != [] && b != [] && a[0] == b[0] {
      assert a == [a[0]] + a[1..] && b == [b[0]] + b[1..];
      BelowTotal(a[1..], b[1..]);
    }
  }

  /** The entries are in strictly increasing name order: one entry per name, in map order. */
  predicate Sorted(es: seq<Entry>)
  {
    forall i, j :: 0 <= i < j < |es| ==> Below(es[i].name, es[j].name)
  }

  // ---------------------------------------------------------------------
  // The map operations.

  function Lookup(es: seq<Entry>, name: string): (r: Option<Entry>)
    ensures r.Some? ==> r.value in es && r.value.name == name
    ensures r.None? ==> forall i :: 0 <= i < |es| ==> es[i].name != name
  {
    if es == [] then None
    else if es[0].name == name then Some(es[0])
    else Lookup(es[1..], name)
  }

  /** `m_Settings[name]`: the entry, or a fresh one with an empty value and no listener. */
  function Touch(es: seq<Entry>, name: string): Entry
  {
    match Lookup(es, name)
    case Some(e) => e
    case None => Entry(name, "", NoListener)
  }

  /** Stores `e` under its name: replaces the entry of that name, or inserts it at its place in name order. */
  function Put(es: seq<Entry>, e: Entry): seq<Entry>
  {
    if es == [] then [e]
    else if es[0].name == e.name then [e] + es[1..]
    else if Below(e.name, es[0].name) then [e] + es
    else [es[0]] + Put(es[1..], e)
  }

  /** After storing an entry, its name finds it and every other name finds what it found before. */
  lemma {:induction false} LookupPut(es: seq<Entry>, e: Entry, name: string)
    ensures Lookup(Put(es, e), name) == if name == e.name then Some(e) else Lookup(es, name)
  {
    if es != [] && es[0].name != e.name && !Below(e.name, es[0].name) {
      assert Put(es, e)[1..] == Put(es[1..], e);
      LookupPut(es[1..], e, name);
    }
  }

  /** Storing keeps the entries in strictly increasing name order. */
  lemma {:induction false} PutSorted(es: seq<Entry>, e: Entry)
    requires Sorted(es)
    ensures Sorted(Put(es, e))
    ensures forall x :: x in Put(es, e) ==> x == e || x in es
  {
    if es == [] {
    } else if es[0].name == e.name {
    } else if Below(e.name, es[0].name) {
      forall j | 0 < j < |es| + 1
        ensures Below(e.name, ([e] + es)[j].name)
      {
        if j > 1 {
          BelowTransitive(e.name, es[0].name, es[j - 1].name);
        }
      }
    } else {
      BelowTotal(e.name, es[0].name);
      PutSorted(es[1..], e);
      var rest := Put(es[1..], e);
      assert forall x :: x in es[1..] ==> x in es;
      forall j | 0 <= j < |rest|
        ensures Below(es[0].name, rest[j].name)
      {
        assert rest[j] in rest;
        if rest[j] != e {
          var k :| 0 <= k < |es[1..]| && es[1..][k] == rest[j];
          assert es[k + 1] == rest[j];
        }
      }
    }
  }

  /** The text of a setting after `setSetting(name, value)`, with the listener it already had. */
  function SetValue(es: seq<Entry>, name: string, value: string): seq<Entry>
  {
    Put(es, Touch(es, name).(value := value))
  }

  /**
   * After `setSetting(name, value)` the name finds the new value, with the
   * listener it had; every other name finds what it found before.
   */
  lemma SetThenLookup(es: seq<Entry>, name: string, value: string, other: string)
    ensures Lookup(SetValue(es, name, value), name) == Some(Entry(name, value, Touch(es, name).listener))
    ensures other != name ==> Lookup(SetValue(es, name, value), other) == Lookup(es, other)
  {
    LookupPut(es, Touch(es, name).(value := value), name);
    LookupPut(es, Touch(es, name).(value := value), other);
  }

  // ---------------------------------------------------------------------
  // Text conversions: `boost::iequals` and the bool overloads.

  function Lower(c: char): char
  {
    if 'A' <= c <= 'Z' then (c as int + 32) as char else c
  }

  /** `boost::iequals` over ASCII letters. */
  predicate IEquals(a: string, b: string)
  {
    |a| == |b| && forall i :: 0 <= i < |a| ==> Lower(a[i]) == Lower(b[i])
  }

  function BoolToString(b: bool): string
  {
    if b then "true" else "false"
  }

  /** How the bool overloads read a text: "true" or "false" in any case, otherwise nothing. */
  function ParseBool(s: string): Option<bool>
  {
    if IEquals(s, "true") then Some(true)
    else if IEquals(s, "false") then Some(false)
    else None
  }

  /** What the bool overload of `setSetting` writes, the bool overloads read back. */
  lemma BoolRoundTrip(b: bool)
    ensures ParseBool(BoolToString(b)) == Some(b)
  {
    if !b {
      assert !IEquals("false", "true");
    }
  }

  /** The case of the letters does not matter to the bool overloads. */
  lemma ParseBoolIgnoresCase(s: string, t: string)
    requires IEquals(s, t)
    ensures ParseBool(s) == ParseBool(t)
  {
  }

  // ---------------------------------------------------------------------
  // Listeners and documents.

  /** What the listener wrapper does with a new value; a conversion that throws is caught and logged. */
  function Notify(l: Listener, value: string): seq<Notification>
  {
    match l
    case NoListener => []
    case OnString(id) => [StringCall(id, value)]
    case OnInt(id) => (match Stoi(value) case Some(n) => [IntCall(id, n)] case None => [Warning])
    case OnBool(id) => (match ParseBool(value) case Some(b) => [BoolCall(id, b)] case None => [])
  }

  /** A set calls at most the one listener of its setting, never another. */
  lemma NotifyOnce(l: Listener, value: string)
    ensures |Notify(l, value)| <= 1
    ensures l.NoListener? ==> Notify(l, value) == []
    ensures forall c :: c in Notify(l, value) && !c.Warning? ==> !l.NoListener? && c.id == l.id
    ensures l.OnString? ==> Notify(l, value) == [StringCall(l.id, value)]
  {
  }

  /** `getSettings`: one "name = value" line per setting, in map order. */
  function Descriptions(es: seq<Entry>): (r: seq<string>)
    ensures |r| == |es| && forall i :: 0 <= i < |es| ==> r[i] == es[i].name + " = " + es[i].value
  {
    seq(|es|, i requires 0 <= i < |es| => es[i].name + " = " + es[i].value)
  }

  /** `saveSettings`: a `Setting` element with both attributes per setting, in map order. */
  function Saved(es: seq<Entry>): (r: seq<SettingElement>)
    ensures |r| == |es| && forall i :: 0 <= i < |es| ==> r[i] == SettingElement(Some(es[i].name), Some(es[i].value))
  {
    seq(|es|, i requires 0 <= i < |es| => SettingElement(Some(es[i].name), Some(es[i].value)))
  }

  /** The settings after `loadSettings` applied the elements that have both a Name and a Value. */
  function Applied(es: seq<Entry>, elements: seq<SettingElement>): seq<Entry>
  {
    if elements == [] then es
    else
      var last := elements[|elements| - 1];
      var before := Applied(es, elements[..|elements| - 1]);
      if last.name.Some? && last.value.Some? then SetValue(before, last.name.value, last.value.value) else before
  }

  /** The listener calls `loadSettings` makes, in element order. */
  function AppliedCalls(es: seq<Entry>, elements: seq<SettingElement>): seq<Notification>
  {
    if elements == [] then []
    else
      var last := elements[|elements| - 1];
      var before := Applied(es, elements[..|elements| - 1]);
      AppliedCalls(es, elements[..|elements| - 1])
        + if last.name.Some? && last.value.Some? then Notify(Touch(before, last.name.value).listener, last.value.value) else []
  }

  /** What a fresh store holds after loading: the same names and values, with no listeners. */
  function Plain(es: seq<Entry>): (r: seq<Entry>)
    ensures |r| == |es| && forall i :: 0 <= i < |es| ==> r[i] == Entry(es[i].name, es[i].value, NoListener)
  {
    seq(|es|, i requires 0 <= i < |es| => Entry(es[i].name, es[i].value, NoListener))
  }

  /** Storing a name above every stored name appends it. */
  lemma {:induction false} PutLast(es: seq<Entry>, e: Entry)
    requires forall i :: 0 <= i < |es| ==> Below(es[i].name, e.name)
    ensures Put(es, e) == es + [e]
  {
    if es != [] {
      assert es[0].name != e.name by {
        BelowIrreflexive(e.name);
      }
      if Below(e.name, es[0].name) {
        BelowTransitive(e.name, es[0].name, e.name);
        BelowIrreflexive(e.name);
      }
      PutLast(es[1..], e);
      assert es == [es[0]] + es[1..];
    }
  }

  /**
   * Loading what was saved into an empty store gives back every setting's
   * name and value, in the same order.
   */
  lemma {:induction false} LoadSaved(es: seq<Entry>)
    requires Sorted(es)
    ensures Applied([], Saved(es)) == Plain(es)
  {
    if es != [] {
      var init := es[..|es| - 1];
      var last := es[|es| - 1];
      assert Saved(es)[..|es| - 1] == Saved(init);
      LoadSaved(init);
      assert Lookup(Plain(init), last.name) == None by {
        forall i | 0 <= i < |init|
          ensures Plain(init)[i].name != last.name
        {
          BelowIrreflexive(last.name);
        }
      }
      PutLast(Plain(init), Entry(last.name, last.value, NoListener));
      assert Plain(init) + [Entry(last.name, last.value, NoListener)] == Plain(es);
    }
  }

  // ---------------------------------------------------------------------
  // The store.

  class Settings {
    var entries: seq<Entry>

    predicate Valid()
      reads this
    {
      Sorted(entries)
    }

    constructor ()
      ensures entries == [] && Valid()
    {
      entries := [];
    }

    /**
     * `setSetting` for a string: the value is stored first, then the
     * setting's listener, if any, is called with it.
     */
    method SetSetting(name: string, value: string) returns (calls: seq<Notification>)
      requires Valid()
      modifies this
      ensures Valid()
      ensures entries == SetValue(old(entries), name, value)
      ensures calls == Notify(Touch(old(entries), name).listener, value)
    {
      var e := Touch(entries, name);
      PutSorted(entries, e.(value := value));
      entries := Put(entries, e.(value := value));
      calls := Notify(e.listener, value);
    }

    method SetInt(name: string, value: int) returns (calls: seq<Notification>)
      requires Valid()
      modifies this
      ensures Valid()
      ensures entries == SetValue(old(entries), name, IntToString(value))
      ensures calls == Notify(Touch(old(entries), name).listener, IntToString(value))
    {
      calls := SetSetting(name, IntToString(value));
    }

    method SetBool(name: string, value: bool) returns (calls: seq<Notification>)
      requires Valid()
      modifies this
      ensures Valid()
      ensures entries == SetValue(old(entries), name, BoolToString(value))
      ensures calls == Notify(Touch(old(entries), name).listener, BoolToString(value))
    {
      calls := SetSetting(name, BoolToString(value));
    }

    /** `setListener`: replaces the setting's listener, creating the setting with an empty value if needed. */
    method SetListener(name: string, l: Listener)
      requires Valid()
      modifies this
      ensures Valid()
      ensures entries == Put(old(entries), Touch(old(entries), name).(listener := l))
    {
      var e := Touch(entries, name);
      PutSorted(entries, e.(listener := l));
      entries := Put(entries, e.(listener := l));
    }

    /** `querySetting` for a string: the stored value, or `out` unchanged when there is none. */
    method QueryString(name: string, out: string) returns (r: string)
      ensures Lookup(entries, name).Some? ==> r == Lookup(entries, name).value.value
      ensures Lookup(entries, name).None? ==> r == out
    {
      r := out;
      var i := 0;
      while i < |entries|
        invariant 0 <= i <= |entries|
        invariant Lookup(entries, name) == Lookup(entries[i..], name)
      {
        if entries[i].name == name {
          return entries[i].value;
        }
        assert entries[i..][1..] == entries[i + 1..];
        i := i + 1;
      }
    }

    /** `querySetting` for an int: `std::stoi` of the stored value (it throws on a bad one), or `out` unchanged. */
    method QueryInt(name: string, out: int) returns (r: Result<int, ()>)
      ensures Lookup(entries, name).None? ==> r == Ok(out)
      ensures Lookup(entries, name).Some? ==>
        r == match Stoi(Lookup(entries, name).value.value) case Some(n) => Ok(n) case None => Err(())
    {
      var found := Lookup(entries, name);
      if found.None? {
        return Ok(out);
      }
      var n := Stoi(found.value.value);
      if n.None? {
        return Err(());
      }
      return Ok(n.value);
    }

    /** `querySetting` for a bool: changes `out` only when the stored value is "true" or "false" in any case. */
    method QueryBool(name: string, out: bool) returns (r: bool)
      ensures Lookup(entries, name).Some? && ParseBool(Lookup(entries, name).value.value).Some? ==>
        r == ParseBool(Lookup(entries, name).value.value).value
      ensures Lookup(entries, name).None? || ParseBool(Lookup(entries, name).value.value).None? ==> r == out
    {
      var found := QueryString(name, "");
      r := out;
      if Lookup(entries, name).Some? {
        var b := ParseBool(found);
        if b.Some? {
          r := b.value;
        }
      }
    }

    /** `getSettings`. */
    method GetSettings() returns (lines: seq<string>)
      ensures lines == Descriptions(entries)
    {
      lines := [];
      for i := 0 to |entries|
        invariant lines == Descriptions(entries)[..i]
      {
        lines := lines + [entries[i].name + " = " + entries[i].value];
      }
    }

    /** `saveSettings`, the document written rather than its XML text. */
    method SaveSettings() returns (elements: seq<SettingElement>)
      ensures elements == Saved(entries)
    {
      elements := [];
      for i := 0 to |entries|
        invariant elements == Saved(entries)[..i]
      {
        elements := elements + [SettingElement(Some(entries[i].name), Some(entries[i].value))];
      }
    }

    /** `loadSettings`: rejects an empty stream and a document without the root, else applies every complete element. */
    method LoadSettings(doc: Document) returns (r: Result<seq<Notification>, string>)
      requires Valid()
      modifies this
      ensures Valid()
      ensures doc.size == 0 ==> r == Err(INVALID_STREAM) && entries == old(entries)
      ensures doc.size != 0 && doc.root.None? ==> r == Err(MISSING_ROOT) && entries == old(entries)
      ensures doc.size != 0 && doc.root.Some? ==>
        r == Ok(AppliedCalls(old(entries), doc.root.value)) && entries == Applied(old(entries), doc.root.value)
    {
      if doc.size == 0 {
        return Err(INVALID_STREAM);
      }
      if doc.root.None? {
        return Err(MISSING_ROOT);
      }
      var elements := doc.root.value;
      var calls := [];
      for i := 0 to |elements|
        invariant Valid()
        invariant entries == Applied(old(entries), elements[..i])
        invariant calls == AppliedCalls(old(entries), elements[..i])
      {
        assert elements[..i + 1][..i] == elements[..i];
        var el := elements[i];
        if el.name.Some? && el.value.Some? {
          var c := SetSetting(el.name.value, el.value.value);
          calls := calls + c;
        }
      }
      assert elements[..|elements|] == elements;
      return Ok(calls);
    }
  }

  // ---------------------------------------------------------------------
  // The process-wide instance.

  /** `m_MasterInstance` (owned) and `m_Instance` (the one handed out). */
  class Singleton {
    var master: Settings?
    var instance: Settings?

    constructor ()
      ensures master == null && instance == null
    {
      master, instance := null, null;
    }

    /** `getInstance`: throws until an instance is set. */
    method GetInstance() returns (r: Result<Settings, string>)
      ensures instance == null ==> r == Err(NOT_INITIALIZED)
      ensures instance != null ==> r == Ok(instance)
    {
      if instance == null {
        return Err(NOT_INITIALIZED);
      }
      return Ok(instance);
    }

    /** `initializeMaster`: a new, empty store becomes both the master and the instance. */
    method InitializeMaster()
      modifies this
      ensures master != null && fresh(master) && instance == master && master.entries == [] && master.Valid()
    {
      master := new Settings();
      instance := master;
    }

    /** `initializeSlave`: hands out another process's store. */
    method InitializeSlave(other: Settings)
      modifies this
      ensures instance == other && master == old(master)
    {
      instance := other;
    }

    /** `shutdown`: forgets the instance and releases the master. */
    method Shutdown()
      modifies this
      ensures master == null && instance == null
    {
      instance := null;
      master := null;
    }
  }
}
