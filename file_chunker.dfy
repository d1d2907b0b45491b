// FileChunker: the stream adapter the `file` helpers put between a file
// reader and a websocket. It buffers whatever pieces the reader yields and
// hands out chunks of exactly `chunk_size` bytes, then one shorter
// remainder when the file ends, then nothing.
module FileChunking {
  import opened Wrappers

  type byte = b: int | 0 <= b < 256

  /** An I/O error the reader reports. */
  datatype ReadError = ReadError(cause: string)

  /** One item the file reader yields. */
  type Piece = Result<seq<byte>, ReadError>

  /** The bytes of the pieces that were read successfully, in order. */
  function Data(pieces: seq<Piece>): seq<byte>
  {
    if pieces == [] then []
    else (if pieces[0].Ok? then pieces[0].value else []) + Data(pieces[1..])
  }

  /** The errors among the items, in order. */
  function Errors(items: seq<Piece>): seq<ReadError>
  {
    if items == [] then []
    else (if items[0].Err? then [items[0].error] else []) + Errors(items[1..])
  }

  /** The number of bytes and pieces still to be handed out; every item a poll yields makes it smaller. */
  function Measure(buf: seq<byte>, pieces: seq<Piece>): nat
  {
    |buf| + |Data(pieces)| + |pieces|
  }

  /** What one poll yields, and the buffer and reader it leaves. */
  datatype Poll = Poll(item: Option<Piece>, buf: seq<byte>, rest: seq<Piece>)

  /**
   * One `poll_next`: read pieces into the buffer until it holds `size`
   * bytes; a read error is passed on at once (the buffer is kept), and the
   * end of the file yields the whole buffer, or nothing if it is empty.
   */
  function PollSpec(buf: seq<byte>, pieces: seq<Piece>, size: nat): (p: Poll)
    ensures p.item.None? ==> buf == [] && p.buf == [] && p.rest == []
    ensures p.item.Some? && p.item.value.Ok? ==>
              |p.item.value.value| == size
              || (0 < |p.item.value.value| < size && p.buf == [] && p.rest == [])
    decreases |pieces|
  {
    if |buf| >= size then Poll(Some(Ok(buf[..size])), buf[size..], pieces)
    else if pieces == [] then
      if buf == [] then Poll(None, [], []) else Poll(Some(Ok(buf)), [], [])
    else
      match pieces[0]
      case Err(e) => Poll(Some(Err(e)), buf, pieces[1..])
      case Ok(d) => PollSpec(buf + d, pieces[1..], size)
  }

  /** A poll that reports the end has read a file with no bytes left in it. */
  lemma {:induction false} PollEnd(buf: seq<byte>, pieces: seq<Piece>, size: nat)
    requires PollSpec(buf, pieces, size).item.None?
    ensures Data(pieces) == [] && Errors(pieces) == []
    decreases |pieces|
  {
    if |buf| < size && pieces != [] {
      PollEnd(buf + pieces[0].value, pieces[1..], size);
    }
  }

  /** A poll loses no byte: what it yields, keeps and leaves unread is what it had. */
  lemma {:induction false} PollConserves(buf: seq<byte>, pieces: seq<Piece>, size: nat)
    ensures var p := PollSpec(buf, pieces, size);
      (if p.item.Some? && p.item.value.Ok? then p.item.value.value else []) + p.buf + Data(p.rest)
        == buf + Data(pieces)
    decreases |pieces|
  {
    var p := PollSpec(buf, pieces, size);
    if |buf| >= size {
      assert buf == buf[..size] + buf[size..];
    } else if pieces == [] {
    } else if pieces[0].Ok? {
      var d := pieces[0].value;
      PollConserves(buf + d, pieces[1..], size);
      assert buf + d + Data(pieces[1..]) == buf + Data(pieces);
      if p.item.None? {
        PollEnd(buf + d, pieces[1..], size);
      }
    }
  }

  /** A poll passes read errors on in order: the one it yields, then those it leaves unread. */
  lemma {:induction false} PollErrors(buf: seq<byte>, pieces: seq<Piece>, size: nat)
    ensures var p := PollSpec(buf, pieces, size);
      Errors(if p.item.Some? then [p.item.value] else []) + Errors(p.rest) == Errors(pieces)
    decreases |pieces|
  {
    var p := PollSpec(buf, pieces, size);
    if |buf| >= size {
    } else if pieces == [] {
    } else if pieces[0].Ok? {
      PollErrors(buf + pieces[0].value, pieces[1..], size);
      if p.item.None? {
        PollEnd(buf + pieces[0].value, pieces[1..], size);
      }
    }
  }

  /** Every item a poll yields makes the work left smaller. */
  lemma {:induction false} PollProgress(buf: seq<byte>, pieces: seq<Piece>, size: nat)
    requires size > 0
    requires PollSpec(buf, pieces, size).item.Some?
    ensures var p := PollSpec(buf, pieces, size); Measure(p.buf, p.rest) < Measure(buf, pieces)
    decreases |pieces|
  {
    if |buf| < size && pieces != [] {
      if pieces[0].Ok? {
        PollProgress(buf + pieces[0].value, pieces[1..], size);
      }
    }
  }

  /** Everything the chunker yields until it reports the end of the file. */
  function Chunks(buf: seq<byte>, pieces: seq<Piece>, size: nat): seq<Piece>
    requires size > 0
    decreases Measure(buf, pieces)
  {
    var p := PollSpec(buf, pieces, size);
    if p.item.None? then []
    else
      PollProgress(buf, pieces, size);
      [p.item.value] + Chunks(p.buf, p.rest, size)
  }

  /** The chunks that were read successfully, in order. */
  function OkChunks(items: seq<Piece>): seq<seq<byte>>
  {
    if items == [] then []
    else (if items[0].Ok? then [items[0].value] else []) + OkChunks(items[1..])
  }

  function Flatten(chunks: seq<seq<byte>>): seq<byte>
  {
    if chunks == [] then [] else chunks[0] + Flatten(chunks[1..])
  }

  lemma FlattenCons(c: seq<byte>, cs: seq<seq<byte>>)
    ensures Flatten([c] + cs) == c + Flatten(cs)
  {
    assert ([c] + cs)[0] == c && ([c] + cs)[1..] == cs;
  }

  /** The chunks put back together are the bytes buffered and read. */
  lemma {:induction false} ChunksConcat(buf: seq<byte>, pieces: seq<Piece>, size: nat)
    requires size > 0
    ensures Flatten(OkChunks(Chunks(buf, pieces, size))) == buf + Data(pieces)
    decreases Measure(buf, pieces)
  {
    var p := PollSpec(buf, pieces, size);
    if p.item.Some? {
      PollProgress(buf, pieces, size);
      var tail := Chunks(p.buf, p.rest, size);
      assert Chunks(buf, pieces, size) == [p.item.value] + tail;
      ChunksConcat(p.buf, p.rest, size);
      PollConserves(buf, pieces, size);
      OkChunksCons(p.item.value, tail);
      if p.item.value.Ok? {
        var c := p.item.value.value;
        FlattenCons(c, OkChunks(tail));
        assert c + (p.buf + Data(p.rest)) == c + p.buf + Data(p.rest);
      } else {
        assert [] + p.buf + Data(p.rest) == p.buf + Data(p.rest);
        assert [] + OkChunks(tail) == OkChunks(tail);
      }
    } else {
      PollEnd(buf, pieces, size);
    }
  }

  lemma OkChunksCons(x: Piece, items: seq<Piece>)
    ensures OkChunks([x] + items) == (if x.Ok? then [x.value] else []) + OkChunks(items)
  {
    assert ([x] + items)[0] == x && ([x] + items)[1..] == items;
  }

  /** Read errors come out in the order the reader reported them. */
  lemma {:induction false} ChunksErrors(buf: seq<byte>, pieces: seq<Piece>, size: nat)
    requires size > 0
    ensures Errors(Chunks(buf, pieces, size)) == Errors(pieces)
    decreases Measure(buf, pieces)
  {
    var p := PollSpec(buf, pieces, size);
    if p.item.Some? {
      var cs := Chunks(buf, pieces, size);
      assert cs[0] == p.item.value && cs[1..] == Chunks(p.buf, p.rest, size);
      PollProgress(buf, pieces, size);
      ChunksErrors(p.buf, p.rest, size);
      PollErrors(buf, pieces, size);
    } else {
      PollEnd(buf, pieces, size);
    }
  }

  /**
   * No chunk is empty or longer than `size`, and only the very last item can
   * be shorter than `size`.
   */
  lemma {:induction false} ChunkSizes(buf: seq<byte>, pieces: seq<Piece>, size: nat)
    requires size > 0
    ensures var cs := Chunks(buf, pieces, size);
      forall i :: 0 <= i < |cs| && cs[i].Ok? ==> 0 < |cs[i].value| <= size && (|cs[i].value| < size ==> i == |cs| - 1)
    decreases Measure(buf, pieces)
  {
    var cs := Chunks(buf, pieces, size);
    var p := PollSpec(buf, pieces, size);
    if p.item.Some? {
      assert cs[0] == p.item.value && cs[1..] == Chunks(p.buf, p.rest, size);
      PollProgress(buf, pieces, size);
      ChunkSizes(p.buf, p.rest, size);
      if p.item.value.Ok? && |p.item.value.value| < size {
        assert Chunks(p.buf, p.rest, size) == [];
      }
      forall i | 0 < i < |cs| && cs[i].Ok?
        ensures 0 < |cs[i].value| <= size && (|cs[i].value| < size ==> i == |cs| - 1)
      {
        assert cs[i] == cs[1..][i - 1];
      }
    }
  }

  /** A file read in one piece of `n * size + r` bytes, `0 < r < size`, gives `n` full chunks and the remainder. */
  lemma OnePieceExample(d: seq<byte>)
    requires |d| == 5
    ensures Chunks([], [Ok(d)], 2) == [Ok(d[..2]), Ok(d[2..4]), Ok(d[4..])]
  {
    assert [] + d == d;
    assert PollSpec([], [Ok(d)], 2) == Poll(Some(Ok(d[..2])), d[2..], []);
    assert d[2..][..2] == d[2..4] && d[2..][2..] == d[4..];
    assert PollSpec(d[2..], [], 2) == Poll(Some(Ok(d[2..4])), d[4..], []);
    assert PollSpec(d[4..], [], 2) == Poll(Some(Ok(d[4..])), [], []);
    assert Chunks([], [], 2) == [];
    assert Chunks(d[4..], [], 2) == [Ok(d[4..])];
    assert Chunks(d[2..], [], 2) == [Ok(d[2..4]), Ok(d[4..])];
  }

  /** The chunker: its chunk size, its buffer, and what the reader has yet to yield. */
  class FileChunker {
    const chunkSize: nat
    var buf: seq<byte>
    var file: seq<Piece>

    /** `FileChunker::new`: an empty buffer over the whole file. */
    constructor(file: seq<Piece>, chunkSize: nat)
      ensures this.chunkSize == chunkSize && buf == [] && this.file == file
    {
      this.chunkSize := chunkSize;
      buf := [];
      this.file := file;
    }

    /** `poll_next`, every read answered at once. */
    method PollNext() returns (item: Option<Piece>)
      modifies this
      ensures Poll(item, buf, file) == PollSpec(old(buf), old(file), chunkSize)
    {
      while |buf| < chunkSize
        invariant PollSpec(buf, file, chunkSize) == PollSpec(old(buf), old(file), chunkSize)
        decreases |file|
      {
        if file == [] {
          if buf == [] {
            item := None;
          } else {
            item := Some(Ok(buf));
            buf := [];
          }
          return;
        }
        var next := file[0];
        file := file[1..];
        match next
        case Err(e) =>
          item := Some(Err(e));
          return;
        case Ok(d) =>
          buf := buf + d;
      }
      item := Some(Ok(buf[..chunkSize]));
      buf := buf[chunkSize..];
    }
  }

  /**
   * The producer loop of the `file` helpers, `while let Some(frame) =
   * chunker.next()`: every item the chunker yields, in order.
   */
  method ChunkFile(file: seq<Piece>, chunkSize: nat) returns (frames: seq<Piece>)
    requires chunkSize > 0
    ensures frames == Chunks([], file, chunkSize)
  {
    var chunker := new FileChunker(file, chunkSize);
    frames := [];
    while true
      invariant frames + Chunks(chunker.buf, chunker.file, chunkSize) == Chunks([], file, chunkSize)
      invariant chunker.chunkSize == chunkSize
      decreases Measure(chunker.buf, chunker.file)
    {
      ghost var buf0, file0 := chunker.buf, chunker.file;
      ghost var before := Chunks(buf0, file0, chunkSize);
      var item := chunker.PollNext();
      if item.None? {
        return;
      }
      PollProgress(buf0, file0, chunkSize);
      assert before == [item.value] + Chunks(chunker.buf, chunker.file, chunkSize);
      frames := frames + [item.value];
    }
  }
}
