/** A job's output as it is forwarded: raw chunks, never cut inside a character (section 3 of RFC 3629). */
module Stream {
  newtype byte = x: int | 0 <= x < 256

  // ---- characters ----

  predicate RuneStart(b: byte) {
    !(0x80 <= b <= 0xBF)
  }

  /** How many bytes a character with this first byte has. A byte no character starts with counts as one. */
  function Size(b: byte): (n: nat)
    ensures 1 <= n <= 4
  {
    if 0xC2 <= b <= 0xDF then 2
    else if 0xE0 <= b <= 0xEF then 3
    else if 0xF0 <= b <= 0xF4 then 4
    else 1
  }

  /** The second bytes a first byte allows: no overlong form, no surrogate, nothing past U+10FFFF. */
  predicate Second(b: byte, c: byte) {
    && (if b == 0xE0 then 0xA0 else if b == 0xF0 then 0x90 else 0x80) <= c
    && c <= (if b == 0xED then 0x9F else if b == 0xF4 then 0x8F else 0xBF)
  }

  predicate Continues(c: byte) {
    0x80 <= c <= 0xBF
  }

  /** Whether these bytes begin with a whole character, or with something no further byte can make one. */
  predicate FullRune(b: seq<byte>) {
    && b != []
    && (|b| >= Size(b[0]) || (|b| > 1 && !Second(b[0], b[1])) || (|b| > 2 && !Continues(b[2])))
  }

  /** One character and nothing else. */
  predicate Char(b: seq<byte>) {
    && b != [] && |b| == Size(b[0]) && (|b| == 1 ==> b[0] < 0x80)
    && (|b| > 1 ==> Second(b[0], b[1])) && forall k | 1 <= k < |b| :: Continues(b[k])
  }

  predicate ValidUtf8(b: seq<byte>) {
    b == [] || (Size(b[0]) <= |b| && Char(b[..Size(b[0])]) && ValidUtf8(b[Size(b[0])..]))
  }

  // ---- where a chunk is cut ----

  /** The scan for the last byte a character may start at, at most four back. */
  function CutFrom(b: seq<byte>, i: int): (cut: nat)
    requires i < |b|
    ensures cut <= |b| && |b| - cut <= 3
    decreases i + 1
  {
    if i < 0 || i < |b| - 4 then |b|
    else if RuneStart(b[i]) then (if FullRune(b[i..]) then |b| else i)
    else CutFrom(b, i - 1)
  }

  function CompleteUtf8(b: seq<byte>): (cut: nat)
    ensures cut <= |b| && |b| - cut <= 3
  {
    CutFrom(b, |b| - 1)
  }

  method FindCut(b: array<byte>, n: nat) returns (cut: nat)
    requires n <= b.Length
    ensures cut == CompleteUtf8(b[..n])
  {
    var i := n - 1;
    while i >= 0 && i >= n - 4
      invariant -1 <= i < n && CompleteUtf8(b[..n]) == CutFrom(b[..n], i)
    {
      if RuneStart(b[i]) {
        assert b[..n][i..] == b[i..n];
        if FullRune(b[i..n]) {
          return n;
        }
        return i;
      }
      i := i - 1;
    }
    return n;
  }

  // ---- the messages of a stream ----

  function Concat(chunks: seq<seq<byte>>): seq<byte> {
    if chunks == [] then [] else Concat(chunks[..|chunks| - 1]) + chunks[|chunks| - 1]
  }

  /** What has been sent, and the tail still carried, after these reads. */
  function Sent(chunks: seq<seq<byte>>): (s: (seq<seq<byte>>, seq<byte>))
    ensures |s.1| <= 3
  {
    if chunks == [] then ([], [])
    else
      var (msgs, carry) := Sent(chunks[..|chunks| - 1]);
      var b := carry + chunks[|chunks| - 1];
      var cut := CompleteUtf8(b);
      (if cut > 0 then msgs + [b[..cut]] else msgs, b[cut..])
  }

  /** Everything sent once the stream has ended: the carried tail goes last. */
  function Messages(chunks: seq<seq<byte>>): seq<seq<byte>> {
    var (msgs, carry) := Sent(chunks);
    if carry != [] then msgs + [carry] else msgs
  }

  const BUFFER := 4096

  /** One read, into the room left after the carried tail. */
  method ReadInto(buf: array<byte>, at: nat, chunk: seq<byte>)
    requires at + |chunk| <= buf.Length
    modifies buf
    ensures buf[..at + |chunk|] == old(buf[..at]) + chunk
  {
    for k := 0 to |chunk|
      invariant buf[..at] == old(buf[..at]) && buf[at..at + k] == chunk[..k]
    {
      buf[at + k] := chunk[k];
    }
    assert buf[..at + |chunk|] == buf[..at] + buf[at..at + |chunk|];
  }

  /** The tail moved to the front of the buffer. */
  method ShiftDown(buf: array<byte>, cut: nat, n: nat)
    requires cut <= n <= buf.Length
    modifies buf
    ensures buf[..n - cut] == old(buf[cut..n])
  {
    for k := 0 to n - cut
      invariant buf[..k] == old(buf[cut..cut + k])
      invariant forall j | cut + k <= j < n :: buf[j] == old(buf[j])
    {
      buf[k] := buf[cut + k];
    }
  }

  /** One turn of the forwarding loop: what can be sent, with the rest of the buffer's contents moved to its front. */
  method ForwardOne(buf: array<byte>, carry: nat, chunk: seq<byte>) returns (msg: seq<byte>, left: nat)
    requires carry + |chunk| <= buf.Length
    modifies buf
    ensures var b := old(buf[..carry]) + chunk;
      var cut := CompleteUtf8(b);
      msg == b[..cut] && left == |b| - cut <= 3 <= BUFFER && left <= buf.Length && buf[..left] == b[cut..]
  {
    hide CompleteUtf8;
    ReadInto(buf, carry, chunk);
    var n := carry + |chunk|;
    var cut := FindCut(buf, n);
    msg := buf[..cut];
    assert buf[..cut] == buf[..n][..cut] && buf[cut..n] == buf[..n][cut..];
    ShiftDown(buf, cut, n);
    left := n - cut;
  }

  /** The forwarding loop over the reads a stream gives, the last of which comes with its end. A read asks for no more than
      the buffer has room for after the carried tail, which is always some. */
  method Forward(chunks: seq<seq<byte>>) returns (msgs: seq<seq<byte>>)
    requires chunks != [] && forall i | 0 <= i < |chunks| :: |chunks[i]| <= BUFFER - |Sent(chunks[..i]).1|
    ensures msgs == Messages(chunks)
  {
    var buf := new byte[BUFFER](_ => 0);
    var carry: nat := 0;
    msgs := [];
    hide CompleteUtf8;
    for i := 0 to |chunks|
      invariant carry <= buf.Length == BUFFER
      invariant msgs == Sent(chunks[..i]).0 && buf[..carry] == Sent(chunks[..i]).1
    {
      assert chunks[..i + 1][..i] == chunks[..i];
      var msg;
      msg, carry := ForwardOne(buf, carry, chunks[i]);
      if |msg| > 0 {
        msgs := msgs + [msg];
      }
    }
    assert chunks[..|chunks|] == chunks;
    if carry > 0 {
      msgs := msgs + [buf[..carry]];
    }
  }

  // ---- what the submitter sees ----

  lemma ConcatOne(msgs: seq<seq<byte>>, msg: seq<byte>)
    ensures Concat(msgs + [msg]) == Concat(msgs) + msg
  {
    assert (msgs + [msg])[..|msgs|] == msgs;
  }

  lemma Regroup(sent: seq<byte>, carry: seq<byte>, last: seq<byte>, cut: nat)
    requires cut <= |carry + last|
    ensures sent + (carry + last)[..cut] + (carry + last)[cut..] == sent + carry + last
    ensures cut == 0 ==> sent + (carry + last)[cut..] == sent + carry + last
  {
    assert carry + last == (carry + last)[..cut] + (carry + last)[cut..];
  }

  lemma SentOne(chunks: seq<seq<byte>>)
    requires chunks != []
    ensures var (msgs, carry) := Sent(chunks[..|chunks| - 1]);
      var b := carry + chunks[|chunks| - 1];
      var cut := CompleteUtf8(b);
      && Sent(chunks) == (if cut > 0 then msgs + [b[..cut]] else msgs, b[cut..])
      && Concat(chunks) == Concat(chunks[..|chunks| - 1]) + chunks[|chunks| - 1]
  {
  }

  lemma {:induction false} SentIsRead(chunks: seq<seq<byte>>)
    ensures Concat(Sent(chunks).0) + Sent(chunks).1 == Concat(chunks)
  {
    if chunks != [] {
      hide *;
      var front, last := chunks[..|chunks| - 1], chunks[|chunks| - 1];
      var (msgs, carry) := Sent(front);
      var cut := CompleteUtf8(carry + last);
      SentOne(chunks);
      SentIsRead(front);
      ConcatOne(msgs, (carry + last)[..cut]);
      Regroup(Concat(msgs), carry, last, cut);
    }
  }

  /** Nothing is lost, added or reordered, however the stream was read, and no message is empty. */
  lemma Lossless(chunks: seq<seq<byte>>)
    ensures Concat(Messages(chunks)) == Concat(chunks)
  {
    var (msgs, carry) := Sent(chunks);
    SentIsRead(chunks);
    if carry != [] {
      assert (msgs + [carry])[..|msgs|] == msgs;
    }
  }

  /** Where a beginning of valid text breaks off: after its whole characters, with at most a part of the next one left. */
  lemma {:induction false} Beginning(b: seq<byte>, rest: seq<byte>) returns (k: nat, next: seq<byte>)
    requires ValidUtf8(b + rest)
    ensures k <= |b| && ValidUtf8(b[..k])
    ensures k == |b| || (Char(next) && |b| - k < |next| && b[k..] == next[..|b| - k])
    ensures ValidUtf8(b[k..] + rest)
    decreases |b|
  {
    hide Char, Size;
    var v := b + rest;
    if b == [] {
      k, next := 0, [];
      assert b[0..] + rest == v;
    } else {
      var n := Size(v[0]);
      if n > |b| {
        k, next := 0, v[..n];
        assert b[0..] == next[..|b|] && b[0..] + rest == v;
      } else {
        assert v[n..] == b[n..] + rest;
        k, next := Beginning(b[n..], rest);
        OneMore(b, rest, n, k);
        k := n + k;
      }
    }
  }

  lemma OneMore(b: seq<byte>, rest: seq<byte>, n: nat, k: nat)
    requires b != [] && n == Size(b[0]) <= |b| && k <= |b| - n && Char((b + rest)[..n])
    ensures b[n..][k..] == b[n + k..] && (ValidUtf8(b[n..][..k]) ==> ValidUtf8(b[..n + k]))
  {
    hide Char, Size;
    assert b[..n + k][..n] == (b + rest)[..n] && b[..n + k][n..] == b[n..][..k];
  }

  lemma {:induction false} ValidConcat(a: seq<byte>, b: seq<byte>)
    requires ValidUtf8(a) && ValidUtf8(b)
    ensures ValidUtf8(a + b)
    decreases |a|
  {
    if a == [] {
      assert a + b == b;
    } else {
      var n := Size(a[0]);
      ValidConcat(a[n..], b);
      assert (a + b)[n..] == a[n..] + b && (a + b)[..n] == a[..n];
    }
  }

  /** Valid text that is not empty ends in one character. */
  lemma {:induction false} LastChar(b: seq<byte>) returns (j: nat)
    requires ValidUtf8(b) && b != []
    ensures j < |b| && Char(b[j..])
    decreases |b|
  {
    var n := Size(b[0]);
    if n == |b| {
      j := 0;
      assert b[..n] == b && b[0..] == b;
    } else {
      j := LastChar(b[n..]);
      assert b[n..][j..] == b[n + j..];
      j := n + j;
    }
  }

  /** The scan stops at the last byte a character starts with. */
  lemma {:induction false} ScanStops(b: seq<byte>, i: int, j: nat)
    requires j <= i < |b| && |b| - j <= 4 && RuneStart(b[j]) && forall k | j < k <= i :: !RuneStart(b[k])
    ensures CutFrom(b, i) == if FullRune(b[j..]) then |b| else j
    decreases i
  {
    if i > j {
      ScanStops(b, i - 1, j);
    }
  }

  lemma CutAt(b: seq<byte>, j: nat, c: seq<byte>)
    requires j < |b| && Char(c) && |b| - j <= |c| && b[j..] == c[..|b| - j]
    ensures CompleteUtf8(b) == if |b| - j == |c| then |b| else j
  {
    CharStarts(b, j, c);
    ScanStops(b, |b| - 1, j);
  }

  /** A beginning of valid text is cut after its last whole character. */
  lemma CutIsValid(b: seq<byte>, rest: seq<byte>)
    requires ValidUtf8(b + rest)
    ensures ValidUtf8(b[..CompleteUtf8(b)])
    ensures ValidUtf8(b[CompleteUtf8(b)..] + rest)
  {
    assert b == [] ==> CompleteUtf8(b) == 0;
    hide *;
    var k, next := Beginning(b, rest);
    if k == |b| {
      assert b[..k] == b;
      if b != [] {
        var j := LastChar(b);
        assert b[j..] == b[j..][..|b| - j];
        CutAt(b, j, b[j..]);
      }
    } else {
      CutAt(b, k, next);
    }
  }

  lemma CharStarts(b: seq<byte>, j: nat, c: seq<byte>)
    requires j < |b| && Char(c) && |b| - j <= |c| && b[j..] == c[..|b| - j]
    ensures RuneStart(b[j]) && (forall k | j < k < |b| :: !RuneStart(b[k])) && |b| - j <= 4
    ensures FullRune(b[j..]) <==> |b| - j == |c|
  {
    assert b[j] == c[0];
    forall k | j < k < |b|
      ensures !RuneStart(b[k])
    {
      assert b[k] == b[j..][k - j] == c[k - j];
    }
    assert |b| - j > 1 ==> b[j..][1] == c[1];
    assert |b| - j > 2 ==> b[j..][2] == c[2];
  }

  ghost predicate AllValid(msgs: seq<seq<byte>>) {
    forall i | 0 <= i < |msgs| :: ValidUtf8(msgs[i])
  }

  lemma {:induction false} SentIsValid(chunks: seq<seq<byte>>, rest: seq<byte>)
    requires ValidUtf8(Concat(chunks) + rest)
    ensures AllValid(Sent(chunks).0) && ValidUtf8(Sent(chunks).1 + rest)
  {
    hide ValidUtf8, CompleteUtf8;
    if chunks == [] {
      assert [] + rest == rest && Concat(chunks) == [];
    } else {
      var front, last := chunks[..|chunks| - 1], chunks[|chunks| - 1];
      assert Concat(chunks) + rest == Concat(front) + (last + rest);
      SentIsValid(front, last + rest);
      var b := Sent(front).1 + last;
      assert Sent(front).1 + (last + rest) == b + rest;
      CutIsValid(b, rest);
    }
  }

  /** If a job's whole output is valid text, every message is valid text on its own, however the output was read. */
  lemma MessagesAreValid(chunks: seq<seq<byte>>)
    requires ValidUtf8(Concat(chunks))
    ensures AllValid(Messages(chunks))
  {
    assert Concat(chunks) + [] == Concat(chunks);
    SentIsValid(chunks, []);
    assert Sent(chunks).1 + [] == Sent(chunks).1;
  }
}
