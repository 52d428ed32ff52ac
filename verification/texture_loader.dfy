/**
 * Texture file loading: the file extension is picked out of the name, looked
 * up in the list of supported formats, and the name is handed to the WIC
 * loader, to the DDS loader, or refused. The loaders themselves are Direct3D
 * calls outside the model; their success is a parameter.
 */
module TextureLoader {
  import opened Wrappers

  /** The supported extensions in the order the constructor lists them; "dds" is last. */
  const COMPATIBILITY: seq<string> := ["bmp", "gif", "ico", "jpeg", "jpe", "jpg", "png", "tiff", "tif", "phot", "dds"]

  // ---------------------------------------------------------------------
  // The extension: the last token of the name when split at '.', empty
  // tokens skipped (`strtok`).

  predicate AllDots(s: string)
  {
    forall k :: 0 <= k < |s| ==> s[k] == '.'
  }

  /** `s[lo..hi]` is the last token of `s`: no dot inside, the start or a dot before it, only dots after it. */
  predicate LastTokenAt(s: string, lo: nat, hi: nat)
  {
    && lo < hi <= |s|
    && (forall k :: lo <= k < hi ==> s[k] != '.')
    && (lo == 0 || s[lo - 1] == '.')
    && (forall k :: hi <= k < |s| ==> s[k] == '.')
  }

  /** The extraction loop of `createTextureFromFile`; `None` is the null token of a name made only of dots. */
  method Extension(name: string) returns (ext: Option<string>)
    ensures ext.None? <==> AllDots(name)
    ensures ext.Some? ==> exists lo: nat, hi: nat :: LastTokenAt(name, lo, hi) && ext.value == name[lo..hi]
  {
    ext := None;
    var lo, hi := 0, 0;   // bounds of the last complete token
    var start := 0;       // start of the token being read
    var i := 0;
    while i < |name|
      invariant 0 <= start <= i <= |name|
      invariant forall k :: start <= k < i ==> name[k] != '.'
      invariant start == 0 || name[start - 1] == '.'
      invariant ext.None? ==> forall k :: 0 <= k < start ==> name[k] == '.'
      invariant ext.Some? ==> && lo < hi <= start && ext.value == name[lo..hi]
                              && (forall k :: lo <= k < hi ==> name[k] != '.')
                              && (lo == 0 || name[lo - 1] == '.')
                              && (forall k :: hi <= k < start ==> name[k] == '.')
    {
      if name[i] == '.' {
        if start < i {
          ext := Some(name[start..i]);
          lo, hi := start, i;
        }
        start := i + 1;
      }
      i := i + 1;
    }
    if start < i {
      ext := Some(name[start..i]);
      lo, hi := start, i;
    }
    if ext.Some? {
      assert LastTokenAt(name, lo, hi);
      assert name[lo] != '.';
    }
  }

  /** A name has at most one last token. */
  lemma LastTokenUnique(s: string, lo: nat, hi: nat, lo': nat, hi': nat)
    requires LastTokenAt(s, lo, hi) && LastTokenAt(s, lo', hi')
    ensures lo == lo' && hi == hi'
  {
    // the last characters of both tokens are not dots, so neither ends inside the other's trailing dots
    assert s[hi - 1] != '.' && s[hi' - 1] != '.';
    assert lo > 0 ==> s[lo - 1] == '.';
    assert lo' > 0 ==> s[lo' - 1] == '.';
  }

  /** A name that is not all dots has a last token. */
  lemma {:induction false} LastTokenExists(s: string)
    requires !AllDots(s)
    ensures exists lo: nat, hi: nat :: LastTokenAt(s, lo, hi)
    decreases |s|
  {
    var n := |s|;
    if s[n - 1] == '.' {
      var p := s[..n - 1];
      var k :| 0 <= k < n && s[k] != '.';
      assert p[k] == s[k];
      LastTokenExists(p);
      var lo: nat, hi: nat :| LastTokenAt(p, lo, hi);
      assert LastTokenAt(s, lo, hi);
    } else {
      var lo := TokenStart(s, n - 1);
      assert LastTokenAt(s, lo, n);
    }
  }

  /** The start of the run of non-dots that ends at position `i`. */
  function TokenStart(s: string, i: nat): (lo: nat)
    requires i < |s| && s[i] != '.'
    ensures lo <= i && (lo == 0 || s[lo - 1] == '.')
    ensures forall k :: lo <= k <= i ==> s[k] != '.'
  {
    if i == 0 || s[i - 1] == '.' then i else TokenStart(s, i - 1)
  }

  /** The extension `strtok` leaves in `type`: the name's one last token. */
  ghost function LastToken(s: string): (t: string)
    requires !AllDots(s)
    ensures forall lo: nat, hi: nat :: LastTokenAt(s, lo, hi) ==> t == s[lo..hi]
  {
    LastTokenExists(s);
    var lo: nat, hi: nat :| LastTokenAt(s, lo, hi);
    forall lo': nat, hi': nat | LastTokenAt(s, lo', hi')
      ensures s[lo..hi] == s[lo'..hi']
    {
      LastTokenUnique(s, lo, hi, lo', hi');
    }
    s[lo..hi]
  }

  // ---------------------------------------------------------------------
  // The compatibility check.

  datatype Loader = Wic | Dds | Unsupported

  /** `checkCompability`: any entry but the last selects WIC, the last selects DDS, an empty list or a miss refuses. */
  function Compatibility(list: seq<string>, ext: string): (r: Loader)
    ensures r == Wic <==> |list| > 0 && ext in list[..|list| - 1]
    ensures r == Dds <==> |list| > 0 && ext !in list[..|list| - 1] && ext == list[|list| - 1]
  {
    if |list| == 0 then Unsupported
    else if ext in list[..|list| - 1] then Wic
    else if ext == list[|list| - 1] then Dds
    else Unsupported
  }

  /** With the constructor's list only ".dds" files go to the DDS loader and matching is case-sensitive. */
  lemma DefaultCompatibility(ext: string)
    ensures Compatibility(COMPATIBILITY, ext) == Dds <==> ext == "dds"
    ensures Compatibility(COMPATIBILITY, "png") == Wic
    ensures Compatibility(COMPATIBILITY, "JPG") == Unsupported
  {
    assert COMPATIBILITY[..10] == ["bmp", "gif", "ico", "jpeg", "jpe", "jpg", "png", "tiff", "tif", "phot"];
    assert "JPG" != "jpg" by { assert "JPG"[0] != "jpg"[0]; }
  }

  /** After `destroy` empties the list, every file is refused. */
  lemma DestroyedRefusesAll(ext: string)
    ensures Compatibility([], ext) == Unsupported
  {
  }

  /** What `createTextureFromFile` hands back. */
  datatype Texture = NoTexture | View(loader: Loader, file: string)

  class TextureLoader {
    var list: seq<string>

    constructor ()
      ensures list == COMPATIBILITY
    {
      list := COMPATIBILITY;
    }

    /** `destroy`. */
    method Destroy()
      modifies this
      ensures list == []
    {
      list := [];
    }

    /** `checkCompability`'s loop. */
    method CheckCompatibility(ext: string) returns (r: Loader)
      ensures r == Compatibility(list, ext)
    {
      if |list| == 0 {
        return Unsupported;
      }
      var i := 0;
      while i < |list| - 1
        invariant 0 <= i <= |list| - 1
        invariant ext !in list[..i]
      {
        if ext == list[i] {
          assert ext in list[..|list| - 1] by { assert list[..|list| - 1][i] == ext; }
          return Wic;
        }
        assert list[..i + 1] == list[..i] + [list[i]];
        i := i + 1;
      }
      if ext == list[|list| - 1] {
        return Dds;
      }
      return Unsupported;
    }

    /**
     * `createTextureFromFile`: no view for an unsupported extension (before
     * any load call); otherwise the load through the chosen loader, which
     * throws when `loads` says it fails. A name with no token at all makes
     * the source compare a null pointer, so such names are excluded.
     */
    method CreateTextureFromFile(name: string, loads: bool) returns (r: Result<Texture, string>)
      requires !AllDots(name)
      ensures r.Ok? && r.value.NoTexture? ==>
                forall lo: nat, hi: nat :: LastTokenAt(name, lo, hi) ==> Compatibility(list, name[lo..hi]) == Unsupported
      ensures r.Ok? && r.value.View? ==> r.value.file == name && r.value.loader != Unsupported && loads
      ensures r.Err? ==> !loads
      ensures Compatibility(list, LastToken(name)) == Unsupported <==> r == Ok(NoTexture)
      ensures r.Ok? && r.value.View? ==> r.value.loader == Compatibility(list, LastToken(name))
      ensures r.Err? <==> Compatibility(list, LastToken(name)) != Unsupported && !loads
      ensures r.Err? ==> r.error == if Compatibility(list, LastToken(name)) == Wic then "WIC Texture load failed"
                                    else "DDS Texture load failed (\"" + name + "\")"
    {
      var ext := Extension(name);
      var loader := CheckCompatibility(ext.value);
      assert ext.value == LastToken(name);
      if loader == Unsupported {
        forall lo: nat, hi: nat | LastTokenAt(name, lo, hi)
          ensures Compatibility(list, name[lo..hi]) == Unsupported
        {
          var lo': nat, hi': nat :| LastTokenAt(name, lo', hi') && ext.value == name[lo'..hi'];
          LastTokenUnique(name, lo, hi, lo', hi');
        }
        return Ok(NoTexture);
      }
      if !loads {
        return Err(if loader == Wic then "WIC Texture load failed" else "DDS Texture load failed (\"" + name + "\")");
      }
      r := Ok(View(loader, name));
    }
  }
}
