/**
 Relaying a request body in bounded pieces, and what its chunk framing
 (section 7.1 of RFC 9112) adds on the wire.
 */
module ChunkRelay {

  newtype Byte = b: int | 0 <= b < 256

  type Bytes = seq<Byte>

  const MAX_REQUEST_BODY_SIZE: nat := 256 * 1024 * 1024
  const RELAY_CHUNK_SIZE: nat := 64 * 1024
  const STREAM_FRAMING_ALLOWANCE: nat := 64 * 1024

  /** What the generator does, one after the other: hand on a piece, call
      `finished`, or raise. */
  datatype Event = Piece(data: Bytes) | Finished | TooLarge

  function Pieces(events: seq<Event>): seq<Bytes>
    decreases |events|
  {
    if events == [] then []
    else
      var last := events[|events| - 1];
      Pieces(events[..|events| - 1]) + if last.Piece? then [last.data] else []
  }

  lemma PiecesMore(events: seq<Event>, e: Event)
    ensures Pieces(events + [e]) == Pieces(events) + if e.Piece? then [e.data] else []
  {
    assert (events + [e])[..|events|] == events;
  }

  /** Pieces only, and then one `end`. */
  predicate PiecesThen(events: seq<Event>, end: Event) {
    && events != [] && events[|events| - 1] == end
    && (forall i | 0 <= i < |events| - 1 :: events[i].Piece?)
  }

  function Joined(chunks: seq<Bytes>): Bytes
    decreases |chunks|
  {
    if chunks == [] then [] else Joined(chunks[..|chunks| - 1]) + chunks[|chunks| - 1]
  }

  lemma JoinedMore(chunks: seq<Bytes>, more: Bytes)
    ensures Joined(chunks + [more]) == Joined(chunks) + more
  {
    assert (chunks + [more])[..|chunks|] == chunks;
  }

  lemma {:induction false} JoinedPrefix(chunks: seq<Bytes>, i: nat)
    requires i <= |chunks|
    ensures Joined(chunks[..i]) <= Joined(chunks)
    decreases |chunks|
  {
    if i < |chunks| {
      var init := chunks[..|chunks| - 1];
      JoinedPrefix(init, i);
      assert init[..i] == chunks[..i];
    } else {
      assert chunks[..i] == chunks;
    }
  }

  /** Every piece is full but the last. */
  predicate FullButLast(pieces: seq<Bytes>) {
    && (forall i | 0 <= i < |pieces| - 1 :: |pieces[i]| >= RELAY_CHUNK_SIZE)
    && (pieces != [] ==> pieces[|pieces| - 1] != [])
  }

  /** No piece is larger than a full one and the chunk that filled it. */
  predicate Small(pieces: seq<Bytes>, largest: nat) {
    forall piece | piece in pieces :: |piece| < RELAY_CHUNK_SIZE + largest
  }

  /** The size of the largest chunk. */
  function Largest(content: seq<Bytes>): nat
    decreases |content|
  {
    if content == [] then 0
    else
      var rest := Largest(content[..|content| - 1]);
      if |content[|content| - 1]| > rest then |content[|content| - 1]| else rest
  }

  lemma {:induction false} LargestIsMaximum(content: seq<Bytes>)
    ensures forall i | 0 <= i < |content| :: |content[i]| <= Largest(content)
    ensures content != [] ==> exists i | 0 <= i < |content| :: |content[i]| == Largest(content)
    decreases |content|
  {
    if content != [] {
      var init := content[..|content| - 1];
      LargestIsMaximum(init);
      assert forall i | 0 <= i < |init| :: init[i] == content[i];
      var at := |content| - 1;
      if init != [] && |content[at]| <= Largest(init) {
        at :| 0 <= at < |init| && |init[at]| == Largest(init);
      }
      assert |content[at]| == Largest(content);
    }
  }

  lemma SmallMore(events: seq<Event>, pending: Bytes, largest: nat)
    requires Small(Pieces(events), largest) && |pending| < RELAY_CHUNK_SIZE + largest
    ensures Small(Pieces(events + [Piece(pending)]), largest)
    ensures Small(Pieces(events + [Piece(pending)] + [Finished]), largest)
    ensures Small(Pieces(events + [Finished]), largest)
  {
    PiecesMore(events, Piece(pending));
    PiecesMore(events, Finished);
    PiecesMore(events + [Piece(pending)], Finished);
  }

  /** What was handed on and what is pending are the first `i` chunks. */
  ghost predicate Relaying(events: seq<Event>, pending: Bytes, content: seq<Bytes>, i: nat)
    requires i <= |content|
  {
    && Joined(Pieces(events)) + pending == Joined(content[..i])
    && (forall k | 0 <= k < |events| :: events[k].Piece?)
    && (forall piece | piece in Pieces(events) :: |piece| >= RELAY_CHUNK_SIZE)
  }

  lemma JoinedUpTo(content: seq<Bytes>, i: nat)
    requires i < |content|
    ensures Joined(content[..i + 1]) == Joined(content[..i]) + content[i]
  {
    assert content[..i + 1] == content[..i] + [content[i]];
    JoinedMore(content[..i], content[i]);
  }

  lemma JoinedInTurn(a: Bytes, b: Bytes, c: Bytes)
    ensures a + b + c == a + (b + c)
  {
  }

  lemma TakeIn(events: seq<Event>, pending: Bytes, content: seq<Bytes>, i: nat)
    requires i < |content| && Relaying(events, pending, content, i)
    ensures Relaying(events, pending + content[i], content, i + 1)
    ensures |Joined(content[..i + 1])| == |Joined(content[..i])| + |content[i]|
  {
    JoinedUpTo(content, i);
    JoinedInTurn(Joined(Pieces(events)), pending, content[i]);
  }

  lemma HandOn(events: seq<Event>, pending: Bytes, content: seq<Bytes>, i: nat)
    requires i <= |content| && Relaying(events, pending, content, i)
    ensures Joined(Pieces(events + [Piece(pending)])) == Joined(content[..i])
    ensures |pending| >= RELAY_CHUNK_SIZE ==> Relaying(events + [Piece(pending)], [], content, i)
  {
    PiecesMore(events, Piece(pending));
    JoinedMore(Pieces(events), pending);
    assert Joined(content[..i]) + [] == Joined(content[..i]);
  }

  lemma HandedOnIsPrefix(events: seq<Event>, pending: Bytes, content: seq<Bytes>, i: nat)
    requires i <= |content| && Relaying(events, pending, content, i)
    ensures Joined(Pieces(events)) <= Joined(content)
    ensures |Joined(Pieces(events))| <= |Joined(content[..i])| <= |Joined(content)|
  {
    JoinedPrefix(content, i);
    assert Joined(Pieces(events)) <= Joined(content[..i]);
  }

  lemma FullThenLast(pieces: seq<Bytes>, last: Bytes)
    requires forall piece | piece in pieces :: |piece| >= RELAY_CHUNK_SIZE
    ensures FullButLast(pieces)
    ensures last != [] ==> FullButLast(pieces + [last])
  {
  }

  lemma EndedBy(events: seq<Event>, end: Event)
    requires forall k | 0 <= k < |events| :: events[k].Piece?
    ensures PiecesThen(events + [end], end)
  {
  }

  lemma Ends(events: seq<Event>, pending: Bytes, content: seq<Bytes>)
    requires Relaying(events, pending, content, |content|)
    ensures
      var all := (if pending == [] then events else events + [Piece(pending)]) + [Finished];
      PiecesThen(all, Finished) && Joined(Pieces(all)) == Joined(content) && FullButLast(Pieces(all))
  {
    assert content[..|content|] == content;
    FullThenLast(Pieces(events), pending);
    var before := if pending == [] then events else events + [Piece(pending)];
    if pending == [] {
      assert Joined(Pieces(events)) + [] == Joined(Pieces(events));
    } else {
      PiecesMore(events, Piece(pending));
      JoinedMore(Pieces(events), pending);
    }
    assert Joined(Pieces(before)) == Joined(content) && FullButLast(Pieces(before));
    PiecesMore(before, Finished);
    assert Pieces(before + [Finished]) == Pieces(before);
    EndedBy(before, Finished);
  }

  lemma Stops(events: seq<Event>, pending: Bytes, content: seq<Bytes>, i: nat)
    requires i < |content| && Relaying(events, pending, content, i)
    ensures PiecesThen(events + [TooLarge], TooLarge)
    ensures Pieces(events + [TooLarge]) == Pieces(events) && FullButLast(Pieces(events))
    ensures Joined(Pieces(events)) <= Joined(content)
    ensures |Joined(Pieces(events))| <= |Joined(content[..i])|
    ensures |Joined(content[..i])| + |content[i]| <= |Joined(content)|
  {
    PiecesMore(events, TooLarge);
    EndedBy(events, TooLarge);
    FullThenLast(Pieces(events), pending);
    HandedOnIsPrefix(events, pending, content, i);
    TakeIn(events, pending, content, i);
    JoinedPrefix(content, i + 1);
  }

  /** The generator run to its end. A body within the limit is relayed exactly,
      with `finished` called once, after the last piece; one beyond it stops
      before the excess, with only a prefix relayed. A piece is handed on as soon as it is
      full, so none is larger than a full one and the largest chunk. */
  method BoundedBody(content: seq<Bytes>, limit: nat) returns (events: seq<Event>)
    ensures PiecesThen(events, if |Joined(content)| <= limit then Finished else TooLarge)
    ensures |Joined(content)| <= limit ==> Joined(Pieces(events)) == Joined(content)
    ensures Joined(Pieces(events)) <= Joined(content) && |Joined(Pieces(events))| <= limit
    ensures FullButLast(Pieces(events)) && Small(Pieces(events), Largest(content))
    ensures |Joined(content)| > limit ==> forall piece | piece in Pieces(events) :: |piece| >= RELAY_CHUNK_SIZE
  {
    ghost var largest := Largest(content);
    LargestIsMaximum(content);
    var size := 0;
    var pending: Bytes := [];
    events := [];
    var i := 0;
    while i < |content|
      invariant 0 <= i <= |content|
      invariant size == |Joined(content[..i])| <= limit
      invariant |pending| < RELAY_CHUNK_SIZE && Small(Pieces(events), largest)
      invariant Relaying(events, pending, content, i)
    {
      TakeIn(events, pending, content, i);
      size := size + |content[i]|;
      if size > limit {
        Stops(events, pending, content, i);
        events := events + [TooLarge];
        return;
      }
      pending := pending + content[i];
      i := i + 1;
      if |pending| >= RELAY_CHUNK_SIZE {
        HandOn(events, pending, content, i);
        SmallMore(events, pending, largest);
        events := events + [Piece(pending)];
        pending := [];
      }
    }
    assert content[..i] == content;
    Ends(events, pending, content);
    SmallMore(events, pending, largest);
    if pending != [] {
      events := events + [Piece(pending)];
    }
    events := events + [Finished];
  }

  // ---- The size on the wire

  /** The digits of a chunk size in hexadecimal. */
  function HexDigits(n: nat): nat {
    if n < 16 then 1 else 1 + HexDigits(n / 16)
  }

  /** Chunk size, CRLF, data, CRLF; the last chunk is 0, CRLF, CRLF. */
  function WireSize(pieces: seq<Bytes>): nat
    decreases |pieces|
  {
    if pieces == [] then 5
    else
      var last := pieces[|pieces| - 1];
      WireSize(pieces[..|pieces| - 1]) + HexDigits(|last|) + 2 + |last| + 2
  }

  lemma {:induction false} DigitsBelow(n: nat, digits: nat)
    requires digits >= 1 && n < Power16(digits)
    ensures HexDigits(n) <= digits
    decreases digits
  {
    if n >= 16 {
      DigitsBelow(n / 16, digits - 1);
    }
  }

  function Power16(k: nat): nat {
    if k == 0 then 1 else 16 * Power16(k - 1)
  }

  lemma DigitsOfAPiece(n: nat)
    requires n < MAX_REQUEST_BODY_SIZE
    ensures HexDigits(n) <= 7
  {
    assert Power16(3) == 4096;
    assert Power16(5) == 1048576;
    assert Power16(7) == 268435456;
    DigitsBelow(n, 7);
  }

  /** Full pieces are few, so their framing is small. */
  lemma {:induction false} FramingOfFullPieces(pieces: seq<Bytes>)
    requires forall piece | piece in pieces :: |piece| >= RELAY_CHUNK_SIZE
    requires |Joined(pieces)| < MAX_REQUEST_BODY_SIZE
    ensures WireSize(pieces) <= 5 + |Joined(pieces)| + 11 * |pieces|
    ensures |pieces| * RELAY_CHUNK_SIZE <= |Joined(pieces)|
    decreases |pieces|
  {
    if pieces != [] {
      var init, last := pieces[..|pieces| - 1], pieces[|pieces| - 1];
      FramingOfFullPieces(init);
      DigitsOfAPiece(|last|);
    }
  }

  /** The framing of a relayed body stays under 50 KiB, well inside the
      allowance, so the whole body stays below what the backend refuses. */
  lemma RelayFitsCeiling(pieces: seq<Bytes>)
    requires FullButLast(pieces)
    requires |Joined(pieces)| <= MAX_REQUEST_BODY_SIZE - STREAM_FRAMING_ALLOWANCE
    ensures WireSize(pieces) - |Joined(pieces)| < 50 * 1024
    ensures WireSize(pieces) < MAX_REQUEST_BODY_SIZE
  {
    if pieces != [] {
      var init, last := pieces[..|pieces| - 1], pieces[|pieces| - 1];
      forall piece | piece in init ensures |piece| >= RELAY_CHUNK_SIZE {
      }
      assert Joined(pieces) == Joined(init) + last;
      FramingOfFullPieces(init);
      DigitsOfAPiece(|last|);
      FewPieces(|init|, |Joined(pieces)|);
    }
  }

  lemma FewPieces(count: nat, size: nat)
    requires count * RELAY_CHUNK_SIZE <= size <= MAX_REQUEST_BODY_SIZE - STREAM_FRAMING_ALLOWANCE
    ensures 11 * count + 16 < 50 * 1024
  {
  }

  /** The request as the proxy relays it: with its declared length, or in chunks
      when it has none or was decoded on the way. */
  datatype Request = Request(declared: bool, declaredLength: nat, decoded: bool, content: seq<Bytes>)

  datatype Answer = Refused | Sent(events: seq<Event>, wireSize: nat)

  function Limit(request: Request): nat {
    if request.declared && !request.decoded then MAX_REQUEST_BODY_SIZE - 1
    else MAX_REQUEST_BODY_SIZE - STREAM_FRAMING_ALLOWANCE
  }

  /** Whatever body comes in, what reaches the backend is below its ceiling; and a body is
      relayed whole exactly when it is below the ceiling where its length goes with it, and
      64 KiB below it where it goes in chunks. */
  method RelayBody(request: Request) returns (answer: Answer)
    ensures request.declared && request.declaredLength >= MAX_REQUEST_BODY_SIZE <==> answer.Refused?
    ensures answer.Sent? ==> answer.wireSize < MAX_REQUEST_BODY_SIZE
    ensures answer.Sent? ==>
      var size := |Joined(request.content)|;
      if request.declared && !request.decoded then PiecesThen(answer.events, Finished) <==> size < 256 * 1024 * 1024
      else PiecesThen(answer.events, Finished) <==> size + 64 * 1024 <= 256 * 1024 * 1024
    ensures answer.Sent? ==>
      if PiecesThen(answer.events, Finished)
      then PiecesThen(answer.events, Finished) && Joined(Pieces(answer.events)) == Joined(request.content)
      else PiecesThen(answer.events, TooLarge) && Joined(Pieces(answer.events)) <= Joined(request.content)
    ensures answer.Sent? ==> answer.wireSize == if request.declared && !request.decoded
      then |Joined(Pieces(answer.events))| else WireSize(Pieces(answer.events))
  {
    if request.declared && request.declaredLength >= MAX_REQUEST_BODY_SIZE {
      return Refused;
    }
    var events := BoundedBody(request.content, Limit(request));
    if request.declared && !request.decoded {
      answer := Sent(events, |Joined(Pieces(events))|);
    } else {
      RelayFitsCeiling(Pieces(events));
      answer := Sent(events, WireSize(Pieces(events)));
    }
  }
}
