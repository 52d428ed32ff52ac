/**
 * ModelTextProperties: what the section readers of `ModelLoader` read from
 * lines written the way the converter's input files write them, and what
 * `readJointOffset` and `readAnimation` do to the joint list.
 */
module ModelTextProperties {
  import opened Wrappers
  import opened Text
  import opened TextStream
  import opened ModelTextLoader

  // ---------------------------------------------------------------------
  // startReading and loadFile.

  /** Lines none of which starts with a section key are read past without a change. */
  lemma {:induction false} DispatchNoKeys(m: Model, ls: seq<string>, p: nat)
    requires forall k :: p <= k < |ls| ==> KeyAfter(ls[k], "") !in MODEL_KEYS
    ensures Dispatch(m, ls, p) == (m, false)
    decreases |ls| - p
  {
    if p < |ls| {
      DispatchNoKeys(m, ls, p + 1);
    }
  }

  /** A file without section keys loads to the cleared members. */
  lemma LoadNoKeys(ls: seq<string>, m: Model)
    requires forall k :: 0 <= k < |ls| ==> KeyAfter(ls[k], "") !in MODEL_KEYS
    ensures Load(Some(ls), m) == (Read, Cleared(m))
  {
    DispatchNoKeys(Cleared(m), ls, 0);
  }

  /** Loading forgets what was loaded before, except the frame count. */
  lemma LoadForgets(file: Option<seq<string>>, m1: Model, m2: Model)
    requires m1.numberOfFrames == m2.numberOfFrames
    ensures Load(file, m1) == Load(file, m2)
  {
  }

  // ---------------------------------------------------------------------
  // Sections read up to a blank line.

  /** `n` non-blank lines from `p` on, then a blank line: the run is `n` lines long. */
  lemma {:induction false} RunOf(ls: seq<string>, p: nat, n: nat)
    requires p + n < |ls| && ls[p + n] == ""
    requires forall k :: p <= k < p + n ==> ls[k] != ""
    ensures Run(ls, p) == n && End(ls, p) == p + n + 1
    decreases n
  {
    if n > 0 {
      RunOf(ls, p + 1, n - 1);
    }
  }

  /** A line whose words are a key and then values: the values as read into a float triple (`n` = 3) or pair (`n` = 2). */
  function Float3Words(ws: seq<string>, z: FloatWord, n: nat): Float3
    requires |ws| > n && (n == 2 || n == 3)
  {
    Float3(Some(ws[1]), Some(ws[2]), if n == 3 then Some(ws[3]) else z)
  }

  /**
   * The `k`-th line of a vertex, normal, tangent or texture-coordinate
   * section, when it has all its words, gives its own values whatever the
   * lines before it held.
   */
  lemma {:induction false} Float3LinesAt(ls: seq<string>, p: nat, held: Float3, n: nat, k: nat)
    requires n == 2 || n == 3
    requires k < Run(ls, p) && |Words(ls[p + k])| > n
    ensures Float3Lines(ls, p, held, n).0[k] == Float3Words(Words(ls[p + k]), held.z, n)
    decreases k
  {
    Float3OfWords(ls[p], held, n);
    if k > 0 {
      Float3LinesAt(ls, p + 1, Float3Of(ls[p], held, n), n, k - 1);
    }
  }

  /**
   * A vertex section as written: a "key x y z" line per vertex, then a blank
   * line. Reading it gives back exactly the written vertices and leaves the
   * input after the blank line.
   */
  lemma Float3SectionRoundTrip(key: string, vs: seq<(string, string, string)>, rest: seq<string>, held: Float3)
    requires IsWord(key) && forall i :: 0 <= i < |vs| ==> IsWord(vs[i].0) && IsWord(vs[i].1) && IsWord(vs[i].2)
    ensures var ls := seq(|vs|, i requires 0 <= i < |vs| => ValueLine(key, [vs[i].0, vs[i].1, vs[i].2])) + [""] + rest;
      Float3Lines(ls, 0, held, 3)
        == (seq(|vs|, i requires 0 <= i < |vs| => Float3(Some(vs[i].0), Some(vs[i].1), Some(vs[i].2))), |vs| + 1)
  {
    var ls := seq(|vs|, i requires 0 <= i < |vs| => ValueLine(key, [vs[i].0, vs[i].1, vs[i].2])) + [""] + rest;
    forall i | 0 <= i < |vs|
      ensures Words(ls[i]) == [key, vs[i].0, vs[i].1, vs[i].2] && ls[i] != ""
    {
      assert ls[i] == ValueLine(key, [vs[i].0, vs[i].1, vs[i].2]);
      ValueLineWords(key, [vs[i].0, vs[i].1, vs[i].2]);
    }
    assert ls[|vs|] == "";
    RunOf(ls, 0, |vs|);
    var r := Float3Lines(ls, 0, held, 3);
    forall i | 0 <= i < |vs|
      ensures r.0[i] == Float3(Some(vs[i].0), Some(vs[i].1), Some(vs[i].2))
    {
      Float3LinesAt(ls, 0, held, 3, i);
    }
    assert r.0 == seq(|vs|, i requires 0 <= i < |vs| => Float3(Some(vs[i].0), Some(vs[i].1), Some(vs[i].2)));
  }

  // ---------------------------------------------------------------------
  // readFaces.

  /** The four indices of one face corner. */
  datatype Corner = Corner(vertex: int, tangent: int, normal: int, textureCoord: int)

  predicate InIntRange(n: int)
  {
    INT_MIN <= n <= INT_MAX
  }

  /**
   * The words of a face corner from `p` on: the vertex, tangent, normal and
   * texture-coordinate index as `std::to_string` writes them, each followed
   * by a separator word.
   */
  predicate CornerWords(ws: seq<string>, p: nat, c: Corner)
  {
    p + 8 <= |ws|
    && InIntRange(c.vertex) && InIntRange(c.tangent) && InIntRange(c.normal) && InIntRange(c.textureCoord)
    && ws[p] == IntToString(c.vertex) && ws[p + 2] == IntToString(c.tangent)
    && ws[p + 4] == IntToString(c.normal) && ws[p + 6] == IntToString(c.textureCoord)
  }

  /** The record `readFaces` stores for a corner. */
  function CornerDesc(mid: string, c: Corner): IndexDesc
  {
    IndexDesc(mid, Some(c.vertex), Some(c.tangent), Some(c.normal), Some(c.textureCoord))
  }

  /** One record read from the words of a corner takes those eight words. */
  lemma IndexRecordStep(ws: seq<string>, p: nat, c: Corner, n: nat, mid: string, t: Option<int>)
    requires CornerWords(ws, p, c) && n > 0
    ensures var rest := IndexRecords(At(ws, p + 8), n - 1, mid, Some(c.textureCoord));
      IndexRecords(At(ws, p), n, mid, t) == ([CornerDesc(mid, c)] + rest.0, rest.1)
  {
    CornerRecord(ws, p, c, mid, t);
    IndexRecordsStep(At(ws, p), n, mid, t, CornerDesc(mid, c), At(ws, p + 8));
  }

  /** The eight words of a corner make its record. */
  lemma CornerRecord(ws: seq<string>, p: nat, c: Corner, mid: string, t: Option<int>)
    requires CornerWords(ws, p, c)
    ensures IndexRecord(At(ws, p), mid, t) == (CornerDesc(mid, c), At(ws, p + 8))
  {
    TakeIntText(ws, p, c.vertex, t);
    TakeWordAt(ws, p + 1, "");
    TakeIntText(ws, p + 2, c.tangent, Some(c.vertex));
    TakeWordAt(ws, p + 3, "");
    TakeIntText(ws, p + 4, c.normal, Some(c.tangent));
    TakeWordAt(ws, p + 5, "");
    TakeIntText(ws, p + 6, c.textureCoord, Some(c.normal));
    TakeWordAt(ws, p + 7, "");
    IndicesStep(At(ws, p + 6), Some(c.normal), 1);
    IndicesStep(At(ws, p + 4), Some(c.tangent), 2);
    IndicesStep(At(ws, p + 2), Some(c.vertex), 3);
    IndicesStep(At(ws, p), t, 4);
    assert [Some(c.vertex)] + ([Some(c.tangent)] + ([Some(c.normal)] + ([Some(c.textureCoord)] + [])))
        == [Some(c.vertex), Some(c.tangent), Some(c.normal), Some(c.textureCoord)];
  }

  // ---------------------------------------------------------------------
  // readHierarchy.

  /** A "name id separator parent" line sets the joint's name, id and parent and leaves the rest of it. */
  lemma JointOfWords(line: string, held: Joint, id: int, parent: int)
    requires InIntRange(id) && InIntRange(parent)
    requires var ws := Words(line); |ws| >= 4 && ws[1] == IntToString(id) && ws[3] == IntToString(parent)
    ensures JointOf(line, held) == held.(name := Words(line)[0], id := Some(id), parent := Some(parent))
  {
    var ws := Words(line);
    assert Open(line) == At(ws, 0);
    TakeWordAt(ws, 0, held.name);
    TakeIntText(ws, 1, id, held.id);
    TakeWordAt(ws, 2, "");
    TakeIntText(ws, 3, parent, held.parent);
  }

  /** Each joint `readHierarchy` reads keeps the temporary's offset matrix and keyframes: a fresh temporary has none. */
  lemma {:induction false} JointLinesFresh(ls: seq<string>, p: nat, held: Joint, k: nat)
    requires k < Run(ls, p) && held.offset == UNSET_MATRIX && held.animation == []
    ensures var j := JointLines(ls, p, held).0[k]; j.offset == UNSET_MATRIX && j.animation == []
    decreases k
  {
    if k > 0 {
      JointLinesFresh(ls, p + 1, JointOf(ls[p], held), k - 1);
    }
  }

  // ---------------------------------------------------------------------
  // readJointOffset.

  /**
   * `readJointOffset` from the `i`-th joint on sets the offsets of the next
   * joints, one per line up to the blank line, and changes nothing else. It
   * throws exactly when there are more lines than joints left.
   */
  lemma {:induction false} OffsetLinesShape(js: seq<Joint>, ls: seq<string>, p: nat, i: nat, held: seq<FloatWord>)
    requires |held| == 16 && i <= |js|
    ensures var r := OffsetLines(js, ls, p, i, held);
      && (r.2 <==> Run(ls, p) > |js| - i)
      && (forall k :: 0 <= k < |js| ==> r.0[k].(offset := js[k].offset) == js[k])
      && (forall k :: 0 <= k < |js| && !(i <= k < i + Run(ls, p)) ==> r.0[k] == js[k])
    decreases |ls| - p
  {
    if p < |ls| && ls[p] != "" && i < |js| {
      var mat := MatrixOf(ls[p], held);
      OffsetLinesShape(js[i := js[i].(offset := mat)], ls, p + 1, i + 1, mat);
    }
  }

  /** The offset a matrix line with all its words gives: the sixteen words after its key, in row order. */
  function MatrixWords(ws: seq<string>): (r: seq<FloatWord>)
    requires |ws| >= 17
    ensures |r| == 16
  {
    seq(16, t requires 0 <= t < 16 => Some(ws[1 + t]))
  }

  /** The `k`-th line, when it has all its words, sets the matrix of the `i + k`-th joint from its own words. */
  lemma {:induction false} OffsetLinesAt(js: seq<Joint>, ls: seq<string>, p: nat, i: nat, held: seq<FloatWord>, k: nat)
    requires |held| == 16 && k < Run(ls, p) && i + k < |js| && |Words(ls[p + k])| >= 17
    ensures OffsetLines(js, ls, p, i, held).0[i + k].offset == MatrixWords(Words(ls[p + k]))
    decreases k
  {
    var mat := MatrixOf(ls[p], held);
    var js1 := js[i := js[i].(offset := mat)];
    if k == 0 {
      MatrixOfWords(ls[p], held);
      assert mat == MatrixWords(Words(ls[p]));
      OffsetLinesShape(js1, ls, p + 1, i + 1, mat);
    } else {
      OffsetLinesAt(js1, ls, p + 1, i + 1, mat, k - 1);
    }
  }

  // ---------------------------------------------------------------------
  // readAnimation.

  /** `b` is the joint `a` with `m` keyframes appended to its animation. */
  predicate Grown(a: Joint, b: Joint, m: nat)
  {
    b.(animation := a.animation) == a && |b.animation| == |a.animation| + m && b.animation[..|a.animation|] == a.animation
  }

  lemma GrownTrans(a: Joint, b: Joint, c: Joint, m1: nat, m2: nat)
    requires Grown(a, b, m1) && Grown(b, c, m2)
    ensures Grown(a, c, m1 + m2)
  {
    assert c.animation[..|a.animation|] == c.animation[..|b.animation|][..|a.animation|];
  }

  /**
   * `n` keyframe lines for the `i`-th joint: when there is such a joint they
   * are appended to its animation and nothing else changes; otherwise the
   * loader throws and the joints are as they were.
   */
  lemma {:induction false} FramesShape(js: seq<Joint>, ls: seq<string>, q: nat, i: nat, n: nat, held: KeyFrame)
    ensures var r := Frames(js, ls, q, i, n, held);
      && (r.2 ==> r.0 == js)
      && (forall k :: 0 <= k < |js| && k != i ==> r.0[k] == js[k])
      && (i < |js| ==> Grown(js[i], r.0[i], n))
    decreases n
  {
    if n > 0 && i < |js| {
      var kf := KeyFrameOf(LineAt(ls, q), held);
      var js1 := js[i := js[i].(animation := js[i].animation + [kf])];
      FramesShape(js1, ls, q + 1, i, n - 1, kf);
      assert Grown(js[i], js1[i], 1);
      GrownTrans(js[i], js1[i], Frames(js1, ls, q + 1, i, n - 1, kf).0[i], 1, n - 1);
    }
  }

  /** How many blocks `readAnimation` reads from `p` on, `n` keyframe lines a block. */
  function BlockCount(ls: seq<string>, p: nat, n: nat): nat
    decreases |ls| - p
  {
    if p >= |ls| || ls[p] == "" then 0 else 1 + BlockCount(ls, p + 1 + n, n)
  }

  /** The keyframes the blocks from the `i`-th joint on give the `k`-th joint. */
  function BlockShare(ls: seq<string>, p: nat, i: nat, n: nat, k: nat): nat
  {
    if i <= k < i + BlockCount(ls, p, n) then n else 0
  }

  /** Each joint of `out` is its joint of `js` with its share of the blocks from the `i`-th joint on appended. */
  predicate AllGrown(js: seq<Joint>, out: seq<Joint>, ls: seq<string>, p: nat, i: nat, n: nat)
  {
    |out| == |js| && forall k :: 0 <= k < |js| ==> Grown(js[k], out[k], BlockShare(ls, p, i, n, k))
  }

  /** The loader throws in the blocks exactly when there are keyframes for more joints than there are. */
  lemma {:induction false} BlocksThrow(js: seq<Joint>, ls: seq<string>, p: nat, i: nat, n: nat, held: KeyFrame)
    ensures Blocks(js, ls, p, i, n, held).2 <==> n > 0 && BlockCount(ls, p, n) > 0 && i + BlockCount(ls, p, n) > |js|
    decreases |ls| - p
  {
    if p < |ls| && ls[p] != "" {
      var f := Frames(js, ls, p + 1, i, n, held);
      if !f.2 {
        BlocksThrow(f.0, ls, p + 1 + n, i + 1, n, f.1);
      }
    }
  }

  /**
   * The blocks from the `i`-th joint on, when the loader does not throw: each
   * appends `n` keyframes to the next joint in order, and nothing else changes.
   */
  lemma {:induction false} BlocksGrow(js: seq<Joint>, ls: seq<string>, p: nat, i: nat, n: nat, held: KeyFrame)
    ensures !Blocks(js, ls, p, i, n, held).2 ==> AllGrown(js, Blocks(js, ls, p, i, n, held).0, ls, p, i, n)
    decreases |ls| - p
  {
    if p < |ls| && ls[p] != "" {
      var f := Frames(js, ls, p + 1, i, n, held);
      BlocksStep(js, ls, p, i, n, held, f.0, f.1, f.2);
      var r := Blocks(f.0, ls, p + 1 + n, i + 1, n, f.1);
      if !f.2 && !r.2 {
        FramesShape(js, ls, p + 1, i, n, held);
        BlocksGrow(f.0, ls, p + 1 + n, i + 1, n, f.1);
        assert |f.0| == |js|;
        assert forall k :: 0 <= k < |js| && k != i ==> f.0[k] == js[k];
        assert i < |js| ==> Grown(js[i], f.0[i], n);
        assert AllGrown(f.0, r.0, ls, p + 1 + n, i + 1, n);
        GrowBlock(js, f.0, r.0, ls, p, i, n);
      }
    } else {
      BlocksEndGrow(js, ls, p, i, n, held);
    }
  }

  /** Where the blocks end at once, no joint grows. */
  lemma BlocksEndGrow(js: seq<Joint>, ls: seq<string>, p: nat, i: nat, n: nat, held: KeyFrame)
    requires p >= |ls| || ls[p] == ""
    ensures AllGrown(js, Blocks(js, ls, p, i, n, held).0, ls, p, i, n)
  {
    assert Blocks(js, ls, p, i, n, held).0 == js;
    assert BlockCount(ls, p, n) == 0;
    forall k | 0 <= k < |js|
      ensures Grown(js[k], js[k], 0)
    {
      assert js[k].animation[..|js[k].animation|] == js[k].animation;
    }
  }

  /** One block grows the `i`-th joint by `n` keyframes, the blocks after it the joints after it. */
  lemma GrowBlock(js: seq<Joint>, mid: seq<Joint>, out: seq<Joint>, ls: seq<string>, p: nat, i: nat, n: nat)
    requires p < |ls| && ls[p] != ""
    requires |mid| == |js|
    requires forall k :: 0 <= k < |js| && k != i ==> mid[k] == js[k]
    requires i < |js| ==> Grown(js[i], mid[i], n)
    requires AllGrown(mid, out, ls, p + 1 + n, i + 1, n)
    ensures AllGrown(js, out, ls, p, i, n)
  {
    forall k | 0 <= k < |js|
      ensures Grown(js[k], out[k], BlockShare(ls, p, i, n, k))
    {
      var m1 := if k == i then n else 0;
      if k != i {
        assert js[k].animation[..|js[k].animation|] == js[k].animation;
      }
      assert Grown(js[k], mid[k], m1);
      GrownTrans(js[k], mid[k], out[k], m1, BlockShare(ls, p + 1 + n, i + 1, n, k));
    }
  }
}
