/** A file read in chunks, and the HTTP/3 loop that sends the chunks to the peer. */
module ByteStream {
  import opened Prelude

  type Byte = n: nat | n < 256

  const BUF_SIZE: nat := 8192

  datatype Poll<+T> = Pending | Ready(value: T)

  /** One poll of the file: not yet, an error, or some bytes. */
  datatype ReadAnswer = NotYet | ReadError | Bytes(count: nat)

  /** What an answer delivers when there is room for `room` bytes and `left` bytes are left to read. */
  function Amount(answer: ReadAnswer, room: nat, left: nat): (n: nat)
    ensures n <= room && n <= left
  {
    if !answer.Bytes? then 0
    else
      var most := if room < left then room else left;
      if answer.count < most then answer.count else most
  }

  /** A file and how much of it has been read; the environment decides how each poll goes. */
  class Reader {
    const file: seq<Byte>
    var pos: nat

    predicate Valid()
      reads this
    {
      pos <= |file|
    }

    constructor (file: seq<Byte>)
      ensures Valid() && this.file == file && pos == 0
    {
      this.file := file;
      pos := 0;
    }

    /** How many bytes an answer delivers into a buffer of `room` bytes. */
    function Delivered(answer: ReadAnswer, room: nat): (n: nat)
      requires Valid()
      reads this
      ensures pos + n <= |file| && n <= room
    {
      Amount(answer, room, |file| - pos)
    }

    method PollRead(answer: ReadAnswer, room: nat) returns (r: Poll<Option<seq<Byte>>>)
      requires Valid()
      modifies this
      ensures Valid() && pos == old(pos + Delivered(answer, room))
      ensures r == match answer
                   case NotYet => Pending
                   case ReadError => Ready(None)
                   case Bytes(_) => Ready(Some(file[old(pos)..pos]))
    {
      match answer {
        case NotYet => r := Pending;
        case ReadError => r := Ready(None);
        case Bytes(_) =>
          var n := Delivered(answer, room);
          r := Ready(Some(file[pos..pos + n]));
          pos := pos + n;
      }
    }
  }

  datatype Item = Chunk(data: seq<Byte>) | Broken

  class ReaderStream {
    const reader: Reader

    constructor (reader: Reader)
      ensures this.reader == reader
    {
      this.reader := reader;
    }

    /**
     One poll: a chunk of 1 to 8192 bytes that continues where the reading stood, an error, or the
     end, which is signalled exactly when a read delivers nothing.
     */
    method PollNext(answer: ReadAnswer) returns (r: Poll<Option<Item>>)
      requires reader.Valid()
      modifies reader
      ensures reader.Valid() && reader.pos == old(reader.pos + reader.Delivered(answer, BUF_SIZE))
      ensures r.Pending? <==> answer.NotYet?
      ensures r == Ready(Some(Broken)) <==> answer.ReadError?
      ensures r == Ready(None) <==> answer.Bytes? && reader.pos == old(reader.pos)
      ensures r.Ready? && r.value.Some? && r.value.value.Chunk? ==>
                && r.value.value.data == reader.file[old(reader.pos)..reader.pos]
                && 1 <= |r.value.value.data| <= 8192
    {
      var read := reader.PollRead(answer, BUF_SIZE);
      match read {
        case Pending => r := Pending;
        case Ready(None) => r := Ready(Some(Broken));
        case Ready(Some(filled)) =>
          if |filled| == 0 {
            return Ready(None);
          }
          r := Ready(Some(Chunk(filled)));
      }
    }
  }

  /** What the environment does in one round of the sending loop. */
  datatype Round = Round(read: ReadAnswer, sent: bool)

  datatype SendResult = Finished | SendFailed | StillRunning

  /** Read answers that give nothing only at the end of the file, as a file's do. */
  predicate Honest(rounds: seq<Round>) {
    forall i :: 0 <= i < |rounds| && rounds[i].read.Bytes? ==> rounds[i].read.count > 0
  }

  predicate NoErrors(rounds: seq<Round>) {
    forall i :: 0 <= i < |rounds| ==> !rounds[i].read.ReadError? && rounds[i].sent
  }

  /** How many polls the reader answers with a read. */
  function Reads(rounds: seq<Round>): nat {
    if rounds == [] then 0
    else Reads(rounds[..|rounds| - 1]) + if rounds[|rounds| - 1].read.Bytes? then 1 else 0
  }

  function Concat(chunks: seq<seq<Byte>>): seq<Byte> {
    if chunks == [] then [] else Concat(chunks[..|chunks| - 1]) + chunks[|chunks| - 1]
  }

  lemma ConcatStep(chunks: seq<seq<Byte>>, c: seq<Byte>)
    ensures Concat(chunks + [c]) == Concat(chunks) + c
  {
    assert (chunks + [c])[..|chunks|] == chunks;
  }

  /** How much of a file of `len` bytes these rounds read, if all of them take place. */
  function ReadAfter(len: nat, rounds: seq<Round>): (n: nat)
    ensures n <= len
  {
    if rounds == [] then 0
    else
      var before := ReadAfter(len, rounds[..|rounds| - 1]);
      before + Amount(rounds[|rounds| - 1].read, BUF_SIZE, len - before)
  }

  /** Round `n` is an empty read. */
  predicate EndsAt(len: nat, rounds: seq<Round>, n: nat)
    requires n < |rounds|
  {
    rounds[n].read.Bytes? && ReadAfter(len, rounds[..n + 1]) == ReadAfter(len, rounds[..n])
  }

  /** Round `n` reads a chunk that cannot be sent. */
  predicate FailsAt(len: nat, rounds: seq<Round>, n: nat)
    requires n < |rounds|
  {
    ReadAfter(len, rounds[..n + 1]) > ReadAfter(len, rounds[..n]) && !rounds[n].sent
  }

  predicate GoesOn(len: nat, rounds: seq<Round>, n: nat)
    requires n <= |rounds|
  {
    forall k :: 0 <= k < n ==> !EndsAt(len, rounds, k) && !FailsAt(len, rounds, k)
  }

  /**
   A file's read is empty only at its end, so the loop ends by itself only at a read answer that
   comes after the last byte: it never does so while every later poll fails or is pending.
   */
  lemma EndsOnlyAfterTheLastByte(len: nat, rounds: seq<Round>, n: nat)
    requires n < |rounds| && Honest(rounds)
    ensures EndsAt(len, rounds, n) <==> rounds[n].read.Bytes? && ReadAfter(len, rounds[..n]) == len
  {
    assert rounds[..n + 1][..n] == rounds[..n];
  }

  lemma NothingYet(len: nat, rounds: seq<Round>)
    ensures Concat([]) == [] && ReadAfter(len, rounds[..0]) == 0
  {}

  lemma ReadStep(len: nat, rounds: seq<Round>, n: nat)
    requires n < |rounds|
    ensures var before := ReadAfter(len, rounds[..n]);
            && ReadAfter(len, rounds[..n + 1]) == before + Amount(rounds[n].read, BUF_SIZE, len - before)
            && (!rounds[n].read.Bytes? ==> Amount(rounds[n].read, BUF_SIZE, len - before) == 0)
  {
    assert rounds[..n + 1][..n] == rounds[..n];
  }

  lemma EndOfBody(len: nat, rounds: seq<Round>, n: nat)
    requires n < |rounds| && GoesOn(len, rounds, n) && EndsAt(len, rounds, n)
    ensures Honest(rounds) ==> ReadAfter(len, rounds[..n]) == len
  {
    if Honest(rounds) {
      EndsOnlyAfterTheLastByte(len, rounds, n);
    }
  }

  /** Each honest read that goes on brings at least one byte. */
  lemma {:induction false} ReadsBringBytes(len: nat, rounds: seq<Round>, n: nat)
    requires n <= |rounds| && Honest(rounds) && GoesOn(len, rounds, n)
    ensures Reads(rounds[..n]) <= ReadAfter(len, rounds[..n])
  {
    if n > 0 {
      ReadsBringBytes(len, rounds, n - 1);
      assert !EndsAt(len, rounds, n - 1);
      assert rounds[..n][..n - 1] == rounds[..n - 1];
    }
  }

  lemma EndOfRounds(len: nat, rounds: seq<Round>)
    requires GoesOn(len, rounds, |rounds|)
    ensures rounds[..|rounds|] == rounds
    ensures Honest(rounds) ==> Reads(rounds) <= len
  {
    assert rounds[..|rounds|] == rounds;
    if Honest(rounds) {
      ReadsBringBytes(len, rounds, |rounds|);
    }
  }

  /** If from some round on every poll fails or is pending, a loop that got there does not end. */
  lemma FailingReadsNeverEnd(len: nat, rounds: seq<Round>, from: nat)
    requires from <= |rounds| && GoesOn(len, rounds, from)
    requires forall n :: from <= n < |rounds| ==> !rounds[n].read.Bytes?
    ensures GoesOn(len, rounds, |rounds|)
  {
    forall n | from <= n < |rounds| ensures !EndsAt(len, rounds, n) && !FailsAt(len, rounds, n) {
      assert rounds[..n + 1][..n] == rounds[..n];
    }
  }

  /**
   The body loop of `serve_http`, for a schedule of polls and sends. It passes over read errors and
   stops at a failed send. What the peer has received is exactly what had been read before, in
   chunks of 1 to 8192 bytes. It finishes exactly at the first empty read and fails exactly at the
   first chunk that cannot be sent, whichever comes first; without either it is still running.
   */
  method SendBody(stream: ReaderStream, rounds: seq<Round>) returns (r: SendResult, sent: seq<seq<Byte>>)
    requires stream.reader.Valid() && stream.reader.pos == 0
    modifies stream.reader
    ensures stream.reader.Valid()
    ensures forall i :: 0 <= i < |sent| ==> 1 <= |sent[i]| <= 8192
    ensures !r.SendFailed? ==> Concat(sent) == stream.reader.file[..stream.reader.pos]
    ensures r.SendFailed? ==> Concat(sent) < stream.reader.file[..stream.reader.pos]
    ensures r.Finished? && Honest(rounds) ==> Concat(sent) == stream.reader.file
    ensures NoErrors(rounds) ==> !r.SendFailed?
    ensures Honest(rounds) && Reads(rounds) > |stream.reader.file| ==> !r.StillRunning?
    ensures (forall i :: 0 <= i < |rounds| ==> rounds[i].read.ReadError?) ==> r.StillRunning?
    ensures var len := |stream.reader.file|;
            && (r.StillRunning? <==> GoesOn(len, rounds, |rounds|))
            && (r.Finished? <==> exists n :: 0 <= n < |rounds| && GoesOn(len, rounds, n) && EndsAt(len, rounds, n))
            && (r.SendFailed? <==> exists n :: 0 <= n < |rounds| && GoesOn(len, rounds, n) && FailsAt(len, rounds, n))
            && (r.StillRunning? ==> stream.reader.pos == ReadAfter(len, rounds))
  {
    hide ReadAfter, Amount, Concat, Reads, Honest;
    sent := [];
    ghost var len := |stream.reader.file|;
    NothingYet(len, rounds);
    var n := 0;
    while n < |rounds|
      invariant n <= |rounds| && stream.reader.Valid()
      invariant forall i :: 0 <= i < |sent| ==> 1 <= |sent[i]| <= BUF_SIZE
      invariant Concat(sent) == stream.reader.file[..stream.reader.pos]
      invariant stream.reader.pos == ReadAfter(len, rounds[..n]) && GoesOn(len, rounds, n)
    {
      ghost var before := stream.reader.pos;
      ReadStep(len, rounds, n);
      var next := stream.PollNext(rounds[n].read);
      match next {
        case Pending =>
        case Ready(None) =>
          assert EndsAt(len, rounds, n);
          EndOfBody(len, rounds, n);
          assert stream.reader.file[..len] == stream.reader.file;
          return Finished, sent;
        case Ready(Some(Broken)) =>
        case Ready(Some(Chunk(data))) =>
          assert stream.reader.file[..before] + data == stream.reader.file[..stream.reader.pos];
          if !rounds[n].sent {
            assert FailsAt(len, rounds, n);
            return SendFailed, sent;
          }
          ConcatStep(sent, data);
          sent := sent + [data];
      }
      n := n + 1;
    }
    EndOfRounds(len, rounds);
    r := StillRunning;
  }

  /**
   For every honest schedule without errors, however it mixes pending polls and partial reads, in
   which the reader answers more often than the file has bytes: the loop ends, and the peer has
   received exactly the file, in order.
   */
  method SendWholeFile(file: seq<Byte>, rounds: seq<Round>) returns (r: SendResult, sent: seq<seq<Byte>>)
    requires Honest(rounds) && NoErrors(rounds) && Reads(rounds) > |file|
    ensures r == Finished && Concat(sent) == file
  {
    var reader := new Reader(file);
    var stream := new ReaderStream(reader);
    r, sent := SendBody(stream, rounds);
  }
}
