/**
 * The custom DirectWrite font loaders: the collection key that lists the
 * font files of a folder, the enumerator that walks the decoded list, the
 * in-memory file stream that hands out fragments, and the context that
 * registers the loaders once. DirectWrite itself, the file system and COM
 * reference counting are not part of the model; their outcomes are
 * parameters.
 */
module FontCollectionLoader {
  import opened Wrappers
  import opened Bytes

  /** A file name as the bytes of a `std::string`. */
  type Name = seq<byte>

  // HRESULT values (negative values are failures).
  const S_OK: int := 0
  const S_FALSE: int := 1
  const E_FAIL: int := -0x7FFF_BFFB        // 0x80004005
  const E_INVALIDARG: int := -0x7FF8_FFA9  // 0x80070057

  predicate Failed(hr: int)
  {
    hr < 0
  }

  // ---------------------------------------------------------------------
  // The collection key.

  /** One key record of `CreateFontCollection`: the length as a `uint32_t`, then that many bytes of the name. */
  function KeyRecord(name: Name): (r: seq<byte>)
    ensures |name| < TWO32 ==> r == UintToBytes(|name| as uint32) + name
  {
    UintToBytes(Uint32Of(|name|)) + name[..Uint32Of(|name|)]
  }

  /** The whole key: the records of every file, back to back. */
  function Key(names: seq<Name>): seq<byte>
  {
    EncodeAll(names, KeyRecord)
  }

  /**
   * `CreateEnumeratorFromKey`'s reading of a key: records until the key is
   * used up, failing with E_INVALIDARG when a length prefix or a name would
   * run past its end.
   */
  function ParseKey(key: seq<byte>): (r: Result<seq<Name>, int>)
    ensures r.Err? ==> r.error == E_INVALIDARG
    decreases |key|
  {
    if |key| == 0 then Ok([])
    else if |key| < 4 then Err(E_INVALIDARG)
    else
      var n := BytesToUint(key[..4]) as int;
      if 4 + n > |key| then Err(E_INVALIDARG)
      else
        match ParseKey(key[4 + n..])
        case Err(e) => Err(e)
        case Ok(names) => Ok([key[4..4 + n]] + names)
  }

  function PrependOk(done: seq<Name>, r: Result<seq<Name>, int>): Result<seq<Name>, int>
  {
    match r
    case Err(e) => Err(e)
    case Ok(names) => Ok(done + names)
  }

  /** Decoding a key built from names shorter than 2^32 bytes gives back the same names in the same order. */
  lemma {:induction false} KeyRoundTrip(names: seq<Name>)
    requires forall i :: 0 <= i < |names| ==> |names[i]| < TWO32
    ensures ParseKey(Key(names)) == Ok(names)
  {
    if names != [] {
      var head := names[0];
      var key := Key(names);
      var tail := Key(names[1..]);
      assert key == UintToBytes(|head| as uint32) + head + tail;
      assert key[..4] == UintToBytes(|head| as uint32);
      UintBytesRoundTrip(|head| as uint32);
      assert key[4..4 + |head|] == head;
      assert key[4 + |head|..] == tail;
      KeyRoundTrip(names[1..]);
      assert [head] + names[1..] == names;
    }
  }

  /** A key whose last record is cut short is refused. */
  lemma TruncatedKeyRefused(name: Name, cut: nat)
    requires 0 < |name| < TWO32 && cut < |name|
    ensures ParseKey(Key([name])[..4 + cut]).Err?
  {
    var key := Key([name])[..4 + cut];
    assert [name][1..] == [];
    assert Key([name]) == KeyRecord(name) + Key([]);
    assert key[..4] == UintToBytes(|name| as uint32);
    UintBytesRoundTrip(|name| as uint32);
  }

  /** The key-building loop of `CreateFontCollection`. */
  method BuildKey(files: seq<Name>) returns (key: seq<byte>)
    ensures key == Key(files)
  {
    key := WriteAll(files, KeyRecord);
  }

  lemma ParseKeyStep(key: seq<byte>, pos: nat, n: nat)
    requires pos + 4 + n <= |key|
    requires n == BytesToUint(key[pos..pos + 4]) as int
    ensures ParseKey(key[pos..]) == PrependOk([key[pos + 4..pos + 4 + n]], ParseKey(key[pos + 4 + n..]))
  {
    var s := key[pos..];
    assert s[..4] == key[pos..pos + 4];
    assert s[4..4 + n] == key[pos + 4..pos + 4 + n];
    assert s[4 + n..] == key[pos + 4 + n..];
  }

  lemma ParseKeyFails(key: seq<byte>, pos: nat)
    requires pos < |key|
    requires pos + 4 > |key| || pos + 4 + BytesToUint(key[pos..pos + 4]) as int > |key|
    ensures ParseKey(key[pos..]).Err?
  {
    if pos + 4 <= |key| {
      assert key[pos..][..4] == key[pos..pos + 4];
    }
  }

  lemma PrependOkAssoc(a: seq<Name>, b: seq<Name>, r: Result<seq<Name>, int>)
    ensures PrependOk(a, PrependOk(b, r)) == PrependOk(a + b, r)
  {
    if r.Ok? {
      assert a + (b + r.value) == (a + b) + r.value;
    }
  }

  /** The decoding loop of `CreateEnumeratorFromKey`. */
  method DecodeKey(key: seq<byte>) returns (r: Result<seq<Name>, int>)
    ensures r == ParseKey(key)
  {
    var names: seq<Name> := [];
    var pos := 0;
    assert key[pos..] == key;
    assert PrependOk(names, ParseKey(key)) == ParseKey(key) by {
      if ParseKey(key).Ok? {
        assert names + ParseKey(key).value == ParseKey(key).value;
      }
    }
    while pos < |key|
      invariant 0 <= pos <= |key|
      invariant ParseKey(key) == PrependOk(names, ParseKey(key[pos..]))
      decreases |key| - pos
    {
      if pos + 4 > |key| {
        ParseKeyFails(key, pos);
        return Err(E_INVALIDARG);
      }
      var n := BytesToUint(key[pos..pos + 4]) as int;
      if pos + 4 + n > |key| {
        ParseKeyFails(key, pos);
        return Err(E_INVALIDARG);
      }
      ParseKeyStep(key, pos, n);
      PrependOkAssoc(names, [key[pos + 4..pos + 4 + n]], ParseKey(key[pos + 4 + n..]));
      names := names + [key[pos + 4..pos + 4 + n]];
      pos := pos + 4 + n;
    }
    assert key[pos..] == [];
    assert names + [] == names;
    r := Ok(names);
  }

  // ---------------------------------------------------------------------
  // The file enumerator.

  class Enumerator {
    var names: seq<Name>
    var nextIndex: nat
    /** The file of the last successful `MoveNext`, if any. */
    var current: Option<Name>

    constructor (names: seq<Name>)
      ensures this.names == names && nextIndex == 0 && current == None
    {
      this.names := names;
      nextIndex := 0;
      current := None;
    }

    /**
     * `MoveNext`: `created` is the HRESULT of the factory's file-reference
     * call. The index advances only when there is a next name and the call
     * succeeded.
     */
    method MoveNext(created: int) returns (hasCurrent: bool, hr: int)
      modifies this
      ensures names == old(names)
      ensures hasCurrent <==> old(nextIndex) < |names| && !Failed(created)
      ensures nextIndex == if hasCurrent then old(nextIndex) + 1 else old(nextIndex)
      ensures current == if hasCurrent then Some(names[old(nextIndex)]) else None
      ensures hr == if old(nextIndex) < |names| then created else S_OK
    {
      hasCurrent := false;
      hr := S_OK;
      current := None;
      if nextIndex < |names| {
        hr := created;
        if !Failed(hr) {
          hasCurrent := true;
          current := Some(names[nextIndex]);
          nextIndex := nextIndex + 1;
        }
      }
    }
  }

  /** `CreateEnumeratorFromKey`: an enumerator over the decoded names, or E_INVALIDARG. */
  method CreateEnumeratorFromKey(key: seq<byte>) returns (r: Result<Enumerator, int>)
    ensures r.Err? <==> ParseKey(key).Err?
    ensures r.Err? ==> r.error == E_INVALIDARG
    ensures r.Ok? ==> fresh(r.value) && r.value.names == ParseKey(key).value && r.value.nextIndex == 0
  {
    var decoded := DecodeKey(key);
    if decoded.Err? {
      return Err(decoded.error);
    }
    var e := new Enumerator(decoded.value);
    r := Ok(e);
  }

  // ---------------------------------------------------------------------
  // The in-memory file stream.

  /** `ReadFileFragment`'s check, written as the source writes it (no subtraction below zero happens). */
  predicate FragmentInRange(size: nat, offset: nat, length: nat)
  {
    offset <= size && length <= size - offset
  }

  /** The check accepts exactly the fragments that lie inside the file. */
  lemma FragmentInRangeSpec(size: nat, offset: nat, length: nat)
    ensures FragmentInRange(size, offset, length) <==> offset + length <= size
  {
  }

  class FileStream {
    const content: seq<byte>

    constructor (content: seq<byte>)
      ensures this.content == content
    {
      this.content := content;
    }

    /** `ReadFileFragment`: the bytes from `offset`, or E_FAIL when they would run past the file. */
    method ReadFileFragment(offset: nat, length: nat) returns (r: Result<seq<byte>, int>)
      ensures r.Ok? <==> offset + length <= |content|
      ensures r.Ok? ==> |r.value| == length && content[offset..offset + length] == r.value
      ensures r.Err? ==> r.error == E_FAIL
    {
      if FragmentInRange(|content|, offset, length) {
        r := Ok(content[offset..offset + length]);
      } else {
        r := Err(E_FAIL);
      }
    }

    /** `GetFileSize`. */
    method GetFileSize() returns (size: nat)
      ensures size == |content|
    {
      size := |content|;
    }
  }

  // ---------------------------------------------------------------------
  // The context.

  /** The cache after one `Initialize`: the internal initialiser's result while the cache held S_FALSE, else the cache. */
  function Cached(hr: int, internal: int): int
  {
    if hr == S_FALSE then internal else hr
  }

  class FontContext {
    /** The cached result of the one-time initialisation; S_FALSE until it has run. */
    var hr: int

    constructor ()
      ensures hr == S_FALSE
    {
      hr := S_FALSE;
    }

    /** `Initialize`: runs the internal initialiser (whose result is `internal`) only while the cache holds S_FALSE. */
    method Initialize(internal: int) returns (result: int)
      modifies this
      ensures hr == Cached(old(hr), internal)
      ensures result == hr
    {
      if hr == S_FALSE {
        hr := internal;
      }
      result := hr;
    }

    /**
     * `CreateFontCollection`: after a successful initialisation the files of
     * the folder (`files`, in directory order) are encoded into the key handed
     * to the factory, whose result is `created`.
     */
    method CreateFontCollection(internal: int, files: seq<Name>, created: int) returns (result: int, key: Option<seq<byte>>)
      modifies this
      ensures hr == Cached(old(hr), internal)
      ensures Failed(hr) ==> result == hr && key == None
      ensures !Failed(hr) ==> result == created && key == Some(Key(files))
    {
      var init := Initialize(internal);
      if Failed(init) {
        return init, None;
      }
      var k := BuildKey(files);
      result := created;
      key := Some(k);
    }
  }

  /**
   * Once an initialisation has produced a result other than S_FALSE, every
   * later `Initialize` returns that same result whatever the initialiser would
   * give; an initialiser that itself answers S_FALSE is run again next time.
   */
  lemma InitializeSticks(cached: int, first: int, second: int)
    ensures Cached(cached, first) != S_FALSE ==> Cached(Cached(cached, first), second) == Cached(cached, first)
    ensures cached != S_FALSE ==> Cached(cached, first) == cached
    ensures Cached(Cached(S_FALSE, S_FALSE), second) == second
  {
  }
}
