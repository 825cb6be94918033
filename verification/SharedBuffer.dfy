/**
  RunHTTPRequest hands `buf[:n]` over without copying it, and RunDataSender serialises it after the
  handover (internal/serviceconfig/generic_endpoint.go:347-360, app/client/echo.go:86-91). Module
  Pipeline takes chunks as values; here the buffer is shared, and the two are compared. A read fills
  only the bytes it returns, and serialising a message is one step.
 */
module SharedBuffer {
  import opened Wrappers
  import opened Tunnel
  import opened AgentChannel

  /** `offered` and `held` are lengths of slices of `buf`: on offer to the sender, and with the sender. */
  datatype Shared = Shared(buf: Bytes, todo: seq<Bytes>, offered: Option<nat>, held: Option<nat>, wire: seq<Bytes>)

  datatype Label = ReadChunk | HandOver | Serialise

  ghost predicate Chunks(cs: seq<Bytes>) {
    forall i :: 0 <= i < |cs| ==> 1 <= |cs[i]| <= BUFFER_SIZE
  }

  predicate Enabled(s: Shared, l: Label) {
    match l
    case ReadChunk => s.offered.None? && s.todo != [] && |s.todo[0]| <= |s.buf|
    case HandOver => s.offered.Some? && s.held.None?
    case Serialise => s.held.Some? && s.held.value <= |s.buf|
  }

  function Apply(s: Shared, l: Label): Shared
    requires Enabled(s, l)
  {
    match l
    case ReadChunk =>
      var c := s.todo[0];
      s.(buf := c + s.buf[|c|..], todo := s.todo[1..], offered := Some(|c|))
    case HandOver => s.(held := s.offered, offered := None)
    case Serialise => s.(wire := s.wire + [s.buf[..s.held.value]], held := None)
  }

  ghost predicate Run(s: Shared, ls: seq<Label>, t: Shared)
    decreases |ls|
  {
    if ls == [] then s == t else Enabled(s, ls[0]) && Run(Apply(s, ls[0]), ls[1..], t)
  }

  lemma {:induction false} RunConcat(s: Shared, a: seq<Label>, t: Shared, b: seq<Label>, u: Shared)
    requires Run(s, a, t) && Run(t, b, u)
    ensures Run(s, a + b, u)
    decreases |a|
  {
    if a == [] {
      assert a + b == b;
    } else {
      RunConcat(Apply(s, a[0]), a[1..], t, b, u);
      assert (a + b)[1..] == a[1..] + b;
    }
  }

  function Start(cs: seq<Bytes>): Shared {
    Shared(seq(BUFFER_SIZE, _ => 0), cs, None, None, [])
  }

  predicate Ended(s: Shared) {
    s.todo == [] && s.offered.None? && s.held.None?
  }

  /** Every schedule puts the chunks as read on the wire. */
  ghost predicate AlwaysIntact(cs: seq<Bytes>) {
    forall ls, t :: Run(Start(cs), ls, t) && Ended(t) ==> t.wire == cs
  }

  /** Each chunk begins like the one before it, as far as the shorter of the two goes. */
  ghost predicate Compatible(cs: seq<Bytes>) {
    forall i :: 0 <= i < |cs| ==> AgreesWithNext(cs, i)
  }

  ghost predicate AgreesWithNext(cs: seq<Bytes>, i: nat)
    requires i < |cs|
  {
    i + 1 < |cs| ==> forall j :: 0 <= j < |cs[i]| && j < |cs[i + 1]| ==> cs[i][j] == cs[i + 1][j]
  }

  /** What is left of `c` after the next read. */
  function Overwritten(c: Bytes, next: Bytes): Bytes {
    if |c| <= |next| then next[..|c|] else next + c[|next|..]
  }

  // ------------------------------------------------------------------------
  // Compatible chunks survive every schedule
  // ------------------------------------------------------------------------

  function Count(o: Option<nat>): nat {
    if o.Some? then 1 else 0
  }

  ghost predicate Safe(cs: seq<Bytes>, s: Shared) {
    var k := |s.wire|;
    var n := k + Count(s.held) + Count(s.offered);
    && |s.buf| == BUFFER_SIZE
    && n <= |cs| && s.todo == cs[n..] && s.wire == cs[..k]
    && (s.held.Some? ==> s.held.value == |cs[k]| && cs[k] <= s.buf)
    && (s.offered.Some? ==> s.offered.value == |cs[n - 1]| && cs[n - 1] <= s.buf)
  }

  lemma SafeStep(cs: seq<Bytes>, s: Shared, l: Label)
    requires Chunks(cs) && Compatible(cs) && Safe(cs, s) && Enabled(s, l)
    ensures Safe(cs, Apply(s, l))
  {
    var k := |s.wire|;
    var t := Apply(s, l);
    if l.Serialise? {
      assert s.buf[..s.held.value] == cs[k];
    } else if l.ReadChunk? {
      var n := k + Count(s.held);
      assert cs[n] <= t.buf;
      if s.held.Some? {
        assert AgreesWithNext(cs, k);
        assert forall j :: 0 <= j < |cs[k]| ==> t.buf[j] == cs[k][j];
      }
    }
  }

  lemma {:induction false} SafeRun(cs: seq<Bytes>, s: Shared, ls: seq<Label>, t: Shared)
    requires Chunks(cs) && Compatible(cs) && Safe(cs, s) && Run(s, ls, t)
    ensures Safe(cs, t)
    decreases |ls|
  {
    if ls != [] {
      SafeStep(cs, s, ls[0]);
      SafeRun(cs, Apply(s, ls[0]), ls[1..], t);
    }
  }

  // ------------------------------------------------------------------------
  // Otherwise the schedule that always reads ahead corrupts them
  // ------------------------------------------------------------------------

  function ReadAhead(rest: seq<Bytes>): seq<Label>
    decreases |rest|
  {
    if rest == [] then [Serialise] else [ReadChunk, Serialise, HandOver] + ReadAhead(rest[1..])
  }

  /** The wire when every chunk is serialised after the read of the next. */
  function AllOverwritten(cs: seq<Bytes>): seq<Bytes>
    decreases |cs|
  {
    if |cs| <= 1 then cs else [Overwritten(cs[0], cs[1])] + AllOverwritten(cs[1..])
  }

  lemma {:induction false} ReadAheadRun(s: Shared, c: Bytes) returns (t: Shared)
    requires |s.buf| == BUFFER_SIZE && Chunks([c] + s.todo)
    requires s.offered.None? && s.held == Some(|c|) && c <= s.buf
    ensures Run(s, ReadAhead(s.todo), t) && Ended(t) && t.wire == s.wire + AllOverwritten([c] + s.todo)
    decreases |s.todo|
  {
    assert ([c] + s.todo)[0] == c;
    if s.todo == [] {
      t := Apply(s, Serialise);
      assert Run(s, [Serialise], t);
      assert [c] + s.todo == [c] && s.buf[..|c|] == c;
    } else {
      var s3 := OneAhead(s, c);
      t := ReadAheadRun(s3, s.todo[0]);
      RunConcat(s, [ReadChunk, Serialise, HandOver], s3, ReadAhead(s3.todo), t);
      assert ([c] + s.todo)[1..] == s.todo == [s.todo[0]] + s3.todo;
      assert t.wire == s.wire + ([Overwritten(c, s.todo[0])] + AllOverwritten(s.todo));
    }
  }

  /** The next chunk is read before `c` is serialised. */
  lemma OneAhead(s: Shared, c: Bytes) returns (t: Shared)
    requires |s.buf| == BUFFER_SIZE && Chunks([c] + s.todo) && s.todo != []
    requires s.offered.None? && s.held == Some(|c|) && c <= s.buf
    ensures Run(s, [ReadChunk, Serialise, HandOver], t)
    ensures |t.buf| == BUFFER_SIZE && t.offered.None? && t.held == Some(|s.todo[0]|) && s.todo[0] <= t.buf
    ensures t.todo == s.todo[1..] && Chunks([s.todo[0]] + t.todo)
    ensures t.wire == s.wire + [Overwritten(c, s.todo[0])]
  {
    assert ([c] + s.todo)[1] == s.todo[0];
    var s1 := Apply(s, ReadChunk);
    var s2 := Apply(s1, Serialise);
    t := Apply(s2, HandOver);
    assert s1.buf[..|c|] == Overwritten(c, s.todo[0]);
    assert [s.todo[0]] + t.todo == ([c] + s.todo)[1..];
    ThreeSteps(s, ReadChunk, Serialise, HandOver);
  }

  lemma ThreeSteps(s: Shared, a: Label, b: Label, c: Label)
    requires Enabled(s, a) && Enabled(Apply(s, a), b) && Enabled(Apply(Apply(s, a), b), c)
    ensures Run(s, [a, b, c], Apply(Apply(Apply(s, a), b), c))
  {
    var s1 := Apply(s, a);
    var s2 := Apply(s1, b);
    assert Run(s2, [c], Apply(s2, c));
    assert [b, c][1..] == [c];
    assert Run(s1, [b, c], Apply(s2, c));
    assert [a, b, c][1..] == [b, c];
  }

  lemma {:induction false} OverwrittenDiffers(cs: seq<Bytes>)
    requires Chunks(cs) && AllOverwritten(cs) == cs
    ensures Compatible(cs)
    decreases |cs|
  {
    if |cs| > 1 {
      var o := AllOverwritten(cs);
      assert o[0] == cs[0] && o[1..] == AllOverwritten(cs[1..]) == cs[1..];
      OverwrittenDiffers(cs[1..]);
      forall i | 0 <= i < |cs| ensures AgreesWithNext(cs, i) {
        if i > 0 {
          assert AgreesWithNext(cs[1..], i - 1);
        } else {
          assert forall j :: 0 <= j < |cs[0]| && j < |cs[1]| ==> Overwritten(cs[0], cs[1])[j] == cs[1][j];
        }
      }
    }
  }

  /**
    With the buffer shared, a body reaches the wire as read under every schedule exactly when each chunk
    agrees with the one before it over their common length.
   */
  lemma IntactExactlyWhenCompatible(cs: seq<Bytes>)
    requires Chunks(cs)
    ensures AlwaysIntact(cs) <==> Compatible(cs)
  {
    if Compatible(cs) {
      forall ls, t | Run(Start(cs), ls, t) && Ended(t) ensures t.wire == cs {
        SafeRun(cs, Start(cs), ls, t);
      }
    }
    if AlwaysIntact(cs) && cs != [] {
      var ls, t := ReadAheadFromStart(cs);
      assert t.wire == cs;
      OverwrittenDiffers(cs);
    }
  }

  lemma ReadAheadFromStart(cs: seq<Bytes>) returns (ls: seq<Label>, t: Shared)
    requires Chunks(cs) && cs != []
    ensures Run(Start(cs), ls, t) && Ended(t) && t.wire == AllOverwritten(cs)
  {
    var s := Start(cs);
    var s1 := Apply(s, ReadChunk);
    var s2 := Apply(s1, HandOver);
    assert [cs[0]] + s2.todo == cs;
    t := ReadAheadRun(s2, cs[0]);
    assert Run(s1, [HandOver], s2) by { assert [HandOver][1..] == []; }
    assert Run(s, [ReadChunk, HandOver], s2) by { assert [ReadChunk, HandOver][1..] == [HandOver]; }
    ls := [ReadChunk, HandOver] + ReadAhead(s2.todo);
    RunConcat(s, [ReadChunk, HandOver], s2, ReadAhead(s2.todo), t);
    assert [] + AllOverwritten(cs) == AllOverwritten(cs);
  }

  /** Two one-byte chunks that differ are enough for the first to be lost. */
  lemma TwoChunksCanClash()
    ensures !AlwaysIntact([[1], [2]])
  {
    var cs: seq<Bytes> := [[1], [2]];
    assert cs[0][0] != cs[1][0] && !AgreesWithNext(cs, 0);
    IntactExactlyWhenCompatible(cs);
  }
}
