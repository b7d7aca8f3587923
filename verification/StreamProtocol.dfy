/** One writer and one reader of a stream buffer, interleaved byte by byte: each reads the other's index, copies,
    and publishes its own index. */
module StreamProtocol {
  import opened Circular
  import opened Numbers
  import opened StreamBuffers

  datatype Writer = Resting | Writing(data: seq<byte>, done: nat)
  datatype Reader = Waiting | Reading(count: nat, got: seq<byte>)

  /** The shared memory, what each side is doing, and the history: sent are the bytes published by the writer,
      received those published as read. */
  datatype State = State(
    buffer: seq<byte>, head: nat, tail: nat,
    writer: Writer, reader: Reader,
    sent: seq<byte>, received: seq<byte>)

  datatype Step =
    | BeginSend(data: seq<byte>)
    | Store
    | PublishHead
    | BeginReceive(maxCount: nat)
    | Load
    | PublishTail

  predicate Enabled(s: State, a: Step) {
    match a
    case BeginSend(_) => s.writer.Resting?
    case Store => s.writer.Writing? && s.writer.done < |s.writer.data|
    case PublishHead => s.writer.Writing? && s.writer.done == |s.writer.data|
    case BeginReceive(_) => s.reader.Waiting?
    case Load => s.reader.Reading? && |s.reader.got| < s.reader.count
    case PublishTail => s.reader.Reading? && |s.reader.got| == s.reader.count
  }

  /** Indices in range, and no copy longer than the ring. */
  predicate InRange(s: State) {
    && s.head < |s.buffer| && s.tail < |s.buffer|
    && (s.writer.Writing? ==> s.writer.done <= |s.writer.data| < |s.buffer|)
    && (s.reader.Reading? ==> |s.reader.got| <= s.reader.count < |s.buffer|)
  }

  function Next(s: State, a: Step): State
    requires InRange(s) && Enabled(s, a)
  {
    var n := |s.buffer|;
    match a
    case BeginSend(data) => s.(writer := Writing(data[..Min(|data|, Spaces(n, s.head, s.tail))], 0))
    case Store =>
      s.(buffer := s.buffer[Wrap(s.head + s.writer.done, n) := s.writer.data[s.writer.done]],
         writer := s.writer.(done := s.writer.done + 1))
    case PublishHead =>
      s.(head := Wrap(s.head + |s.writer.data|, n), writer := Resting, sent := s.sent + s.writer.data)
    case BeginReceive(max) => s.(reader := Reading(Min(max, BytesIn(n, s.head, s.tail)), []))
    case Load =>
      s.(reader := s.reader.(got := s.reader.got + [s.buffer[Wrap(s.tail + |s.reader.got|, n)]]))
    case PublishTail =>
      s.(tail := Wrap(s.tail + s.reader.count, n), reader := Waiting, received := s.received + s.reader.got)
  }

  /** How many published bytes are unread. */
  function Unread(s: State): int {
    |s.sent| - |s.received|
  }

  /** What was received, followed by what lies in the ring, is what was sent. */
  ghost predicate InPlace(s: State)
    requires InRange(s) && 0 <= Unread(s) < |s.buffer|
  {
    s.received + Around(s.buffer, s.tail, Unread(s)) == s.sent
  }

  ghost predicate WriterInv(s: State)
    requires InRange(s) && 0 <= Unread(s)
  {
    s.writer.Writing? ==>
      && Unread(s) + |s.writer.data| < |s.buffer|
      && Around(s.buffer, s.head, s.writer.done) == s.writer.data[..s.writer.done]
  }

  ghost predicate ReaderInv(s: State)
    requires InRange(s) && 0 <= Unread(s)
  {
    s.reader.Reading? ==> s.reader.count <= Unread(s) && s.reader.got == Around(s.buffer, s.tail, |s.reader.got|)
  }

  ghost predicate Inv(s: State) {
    && InRange(s) && 0 <= Unread(s) < |s.buffer|
    && s.head == Wrap(s.tail + Unread(s), |s.buffer|)
    && InPlace(s) && WriterInv(s) && ReaderInv(s)
  }

  /** The place the writer stores to is no unread byte's place. */
  lemma StoreMissesUnread(s: State, k: nat)
    requires Inv(s) && Enabled(s, Store) && k < Unread(s)
    ensures Wrap(s.head + s.writer.done, |s.buffer|) != Wrap(s.tail + k, |s.buffer|)
  {
  }

  lemma StoreKeeps(s: State)
    requires Inv(s) && Enabled(s, Store)
    ensures Inv(Next(s, Store))
  {
    var d: nat, u: nat := s.writer.done, Unread(s);
    StoreBeyond(s, u);
    StoreGrows(s.buffer, s.head, d, s.writer.data);
    if s.reader.Reading? {
      StoreBeyond(s, |s.reader.got|);
    }
  }

  /** A store leaves every run of bytes from the tail that ends before it. */
  lemma StoreBeyond(s: State, count: nat)
    requires Inv(s) && Enabled(s, Store) && count <= Unread(s)
    ensures Around(Next(s, Store).buffer, s.tail, count) == Around(s.buffer, s.tail, count)
  {
  }

  lemma StoreGrows(b: seq<byte>, head: nat, d: nat, data: seq<byte>)
    requires head < |b| && d < |data| && d < |b| && Around(b, head, d) == data[..d]
    ensures Around(b[Wrap(head + d, |b|) := data[d]], head, d + 1) == data[..d + 1]
  {
  }

  lemma PublishHeadKeeps(s: State)
    requires Inv(s) && Enabled(s, PublishHead)
    ensures Inv(Next(s, PublishHead))
  {
    var n, u := |s.buffer|, Unread(s);
    AroundSplit(s.buffer, s.tail, u, |s.writer.data|);
    assert s.writer.data[..s.writer.done] == s.writer.data;
    Regroup(s.received, Around(s.buffer, s.tail, u), s.writer.data);
  }

  lemma Regroup(a: seq<byte>, b: seq<byte>, c: seq<byte>)
    ensures (a + b) + c == a + (b + c)
  {
  }

  lemma LoadKeeps(s: State)
    requires Inv(s) && Enabled(s, Load)
    ensures Inv(Next(s, Load))
  {
  }

  /** The reader has what it loaded, and the rest of the unread bytes follows in the ring. */
  lemma LoadedInPlace(s: State)
    requires Inv(s) && Enabled(s, PublishTail)
    ensures var (n, c, u) := (|s.buffer|, s.reader.count, Unread(s));
            s.received + s.reader.got + Around(s.buffer, Wrap(s.tail + c, n), u - c) == s.sent
  {
    var n, c, u := |s.buffer|, s.reader.count, Unread(s);
    AroundSplit(s.buffer, s.tail, c, u - c);
    Regroup(s.received, s.reader.got, Around(s.buffer, Wrap(s.tail + c, n), u - c));
  }

  lemma WrapTwice(a: nat, b: nat, c: nat, n: nat)
    requires a < n && b + c < n
    ensures Wrap(a + (b + c), n) == Wrap(Wrap(a + b, n) + c, n)
  {
  }

  lemma PublishTailKeeps(s: State)
    requires Inv(s) && Enabled(s, PublishTail)
    ensures Inv(Next(s, PublishTail))
  {
    LoadedInPlace(s);
    WrapTwice(s.tail, s.reader.count, Unread(s) - s.reader.count, |s.buffer|);
  }

  lemma BeginKeeps(s: State, a: Step)
    requires Inv(s) && Enabled(s, a) && (a.BeginSend? || a.BeginReceive?)
    ensures Inv(Next(s, a)) && BytesIn(|s.buffer|, s.head, s.tail) == Unread(s)
  {
  }

  lemma NextKeeps(s: State, a: Step)
    requires Inv(s) && Enabled(s, a)
    ensures Inv(Next(s, a))
  {
    match a
    case Store => StoreKeeps(s);
    case PublishHead => PublishHeadKeeps(s);
    case Load => LoadKeeps(s);
    case PublishTail => PublishTailKeeps(s);
    case _ => BeginKeeps(s, a);
  }

  // ---- every interleaving ----

  /** A state with the invariant. */
  type Good = s: State | Inv(s) ghost witness Start([0, 0])

  function Start(buffer: seq<byte>): State {
    State(buffer, 0, 0, Resting, Waiting, [], [])
  }

  lemma StartKeeps(buffer: seq<byte>)
    requires |buffer| > 1
    ensures Inv(Start(buffer))
  {
  }

  function Take(s: Good, a: Step): Good
    requires Enabled(s, a)
  {
    NextKeeps(s, a);
    Next(s, a)
  }

  predicate Possible(s: Good, run: seq<Step>)
    decreases run
  {
    run == [] || (Enabled(s, run[0]) && Possible(Take(s, run[0]), run[1..]))
  }

  function After(s: Good, run: seq<Step>): Good
    requires Possible(s, run)
    decreases run
  {
    if run == [] then s else After(Take(s, run[0]), run[1..])
  }

  /** Whatever the interleaving, what the reader has received is a prefix of what the writer has sent, the
      bytes between are unread in the ring, and there are never more of them than the ring holds. */
  lemma EveryInterleaving(s: Good, run: seq<Step>)
    requires Possible(s, run)
    ensures var q := After(s, run);
            && q.received <= q.sent
            && |q.sent| - |q.received| == BytesIn(|q.buffer|, q.head, q.tail) <= |q.buffer| - 1
            && q.sent[|q.received|..] == Around(q.buffer, q.tail, BytesIn(|q.buffer|, q.head, q.tail))
  {
  }

  /** And in every reachable state no store falls on an unread byte. */
  lemma NoUnreadByteOverwritten(s: Good, run: seq<Step>, k: nat)
    requires Possible(s, run)
    requires var q := After(s, run); Enabled(q, Store) && k < BytesIn(|q.buffer|, q.head, q.tail)
    ensures var q := After(s, run); Next(q, Store).buffer[Wrap(q.tail + k, |q.buffer|)] == q.sent[|q.received| + k]
  {
    var q := After(s, run);
    assert q.sent == q.received + Around(q.buffer, q.tail, Unread(q));
    StoreMissesUnread(q, k);
  }

  // ---- what is sent is what was offered ----

  /** A send begins with as much of its data, from the front, as there is room for, and a receive with as many bytes as
      are wanted and unread; neither changes anything else. */
  lemma BeginsExactly(s: State, a: Step)
    requires Inv(s) && Enabled(s, a) && (a.BeginSend? || a.BeginReceive?)
    ensures var q := Next(s, a);
            match a
            case BeginSend(data) =>
              var room := |s.buffer| - 1 - Unread(s);
              && q == s.(writer := q.writer) && q.writer.Writing? && q.writer.done == 0 && q.writer.data <= data
              && |q.writer.data| == Min(|data|, room)
            case BeginReceive(max) =>
              q == s.(reader := q.reader) && q.reader.Reading? && q.reader.got == []
              && q.reader.count == Min(max, Unread(s))
            case _ => true
  {
    BeginKeeps(s, a);
  }

  /** Everything the writer has taken on, published or not. */
  function Committed(s: State): seq<byte> {
    if s.writer.Writing? then s.sent + s.writer.data else s.sent
  }

  /** What the run's sends offer, in order. */
  function Offers(run: seq<Step>): seq<seq<byte>> {
    if run == [] then [] else Offered(run[0]) + Offers(run[1..])
  }

  function Offered(a: Step): seq<seq<byte>> {
    if a.BeginSend? then [a.data] else []
  }

  /** all is made of one piece from the front of each offer, in their order. */
  ghost predicate MadeOf(all: seq<byte>, offers: seq<seq<byte>>)
    decreases |offers|
  {
    if offers == [] then all == []
    else
      exists rest: seq<byte>, piece: seq<byte> ::
        all == rest + piece && piece <= offers[|offers| - 1] && MadeOf(rest, offers[..|offers| - 1])
  }

  lemma OneOfferMore(all: seq<byte>, offers: seq<seq<byte>>, piece: seq<byte>, data: seq<byte>)
    requires MadeOf(all, offers) && piece <= data
    ensures MadeOf(all + piece, offers + [data])
  {
    assert (offers + [data])[..|offers|] == offers;
    assert MadeOf(all, (offers + [data])[..|offers|]);
  }

  lemma StepCommits(s: Good, a: Step, offers: seq<seq<byte>>)
    requires Enabled(s, a) && MadeOf(Committed(s), offers)
    ensures MadeOf(Committed(Take(s, a)), offers + Offered(a))
  {
    if a.BeginSend? {
      BeginsExactly(s, a);
      OneOfferMore(Committed(s), offers, Take(s, a).writer.data, a.data);
    } else {
      assert offers + [] == offers;
    }
  }

  lemma Reassociate(a: seq<seq<byte>>, b: seq<seq<byte>>, c: seq<seq<byte>>)
    ensures (a + b) + c == a + (b + c)
  {
  }

  lemma {:induction false} RunCommits(s: Good, run: seq<Step>, offers: seq<seq<byte>>)
    requires Possible(s, run) && MadeOf(Committed(s), offers)
    ensures MadeOf(Committed(After(s, run)), offers + Offers(run))
    decreases run
  {
    if run == [] {
      assert offers + [] == offers;
    } else {
      StepCommits(s, run[0], offers);
      RunCommits(Take(s, run[0]), run[1..], offers + Offered(run[0]));
      Reassociate(offers, Offered(run[0]), Offers(run[1..]));
    }
  }

  /** From an empty buffer, whatever the interleaving: what has been sent, with what is being written, is a piece from
      the front of each offer, in order; and what was received is a prefix of it. */
  lemma SentAsOffered(buffer: seq<byte>, run: seq<Step>)
    requires |buffer| > 1
    requires Inv(Start(buffer)) && Possible(Start(buffer), run)
    ensures var q := After(Start(buffer), run); MadeOf(Committed(q), Offers(run)) && q.received <= Committed(q)
  {
    RunCommits(Start(buffer), run, []);
    EveryInterleaving(Start(buffer), run);
    assert [] + Offers(run) == Offers(run);
  }
}
