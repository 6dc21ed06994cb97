/** The write-ahead log byte by byte: a header, then one frame per entry. The serializer and the checksum are
    parameters; the file is a byte sequence with a cursor, as the operating system keeps it. */
module Wal {
  import opened Types

  type Byte = x: nat | x < 256

  const TWO_TO_32 := 0x1_0000_0000

  // ----- Little-endian numbers -----

  /** The low n bytes of k, least significant first. */
  function LittleEndian(k: nat, n: nat): (bs: seq<Byte>)
    ensures |bs| == n
    decreases n
  {
    if n == 0 then [] else [k % 256] + LittleEndian(k / 256, n - 1)
  }

  function U32(k: nat): (bs: seq<Byte>)
    ensures |bs| == 4
  {
    [k % 256, k / 0x100 % 256, k / 0x1_0000 % 256, k / 0x100_0000 % 256]
  }

  function ReadU32(bs: seq<Byte>): nat
    requires |bs| == 4
  {
    bs[0] as int + 0x100 * bs[1] as int + 0x1_0000 * bs[2] as int + 0x100_0000 * bs[3] as int
  }

  /** Four bytes hold a number exactly when it is below 2^32; a larger one comes back truncated. */
  lemma U32RoundTrip(k: nat)
    ensures ReadU32(U32(k)) == k % TWO_TO_32
  {
    var a, b, c := k / 256, k / 256 / 256, k / 256 / 256 / 256;
    assert k / 0x1_0000 == b && k / 0x100_0000 == c;
    assert k == k % 256 + 256 * a && a == a % 256 + 256 * b && b == b % 256 + 256 * c;
    assert c == c % 256 + 256 * (c / 256);
    assert k / 0x100_0000 % 256 == c % 256;
    assert k == ReadU32(U32(k)) + TWO_TO_32 * (c / 256);
  }

  // ----- Frames -----

  /** How entries become bytes and back, and how bytes are checksummed. */
  datatype Codec<!E> = Codec(encode: E -> seq<Byte>, decode: seq<Byte> -> Option<E>, checksum: seq<Byte> -> nat)

  /** Decoding undoes encoding, and checksums have 32 bits. */
  ghost predicate Faithful<E(!new)>(c: Codec<E>) {
    && (forall e :: c.decode(c.encode(e)) == Some(e))
    && (forall bs :: c.checksum(bs) < TWO_TO_32)
  }

  /** The length of the payload fits the length field. */
  predicate Fits<E>(c: Codec<E>, e: E) {
    |c.encode(e)| < TWO_TO_32
  }

  predicate AllFit<E>(c: Codec<E>, es: seq<E>) {
    forall i :: 0 <= i < |es| ==> Fits(c, es[i])
  }

  function Frame<E>(c: Codec<E>, e: E): (bs: seq<Byte>)
    ensures |bs| == 8 + |c.encode(e)|
  {
    var payload := c.encode(e);
    U32(|payload|) + U32(c.checksum(payload)) + payload
  }

  function Frames<E>(c: Codec<E>, es: seq<E>): seq<Byte>
    decreases |es|
  {
    if es == [] then [] else Frame(c, es[0]) + Frames(c, es[1..])
  }

  const MAGIC: seq<Byte> := [0x48, 0x53, 0x4C, 0x57]
  const VERSION := 1
  const HEADER_SIZE := 30

  /** Magic, version, replica id and, in sixteen bytes, the time of creation. */
  function Header(id: ReplicaId, created: nat): (bs: seq<Byte>)
    ensures |bs| == HEADER_SIZE
  {
    MAGIC + LittleEndian(VERSION, 2) + LittleEndian(id, 8) + LittleEndian(created, 16)
  }

  // ----- Reading -----

  datatype WalError =
    | UnexpectedEof
    | CorruptedEntry(offset: nat, expected: nat, actual: nat)
    | Undecodable
    | AlreadyExists
    | InvalidMagic
    | UnsupportedVersion(version: nat)

  function Prepend<E>(e: E, rest: Result<seq<E>, WalError>): Result<seq<E>, WalError> {
    match rest
    case Ok(es) => Ok([e] + es)
    case Err(x) => Err(x)
  }

  /** What the reader finds at one position: the end, an entry and where the next frame starts, or an error. */
  datatype Found<+E> = End | Entry(entry: E, next: nat) | Bad(error: WalError)

  /** Fewer than four bytes count as the end; a frame that is cut later, has the wrong checksum or does not
      decode is an error. */
  function FrameAt<E>(c: Codec<E>, bs: seq<Byte>, pos: nat): (f: Found<E>)
    ensures f.Entry? ==> pos < f.next <= |bs|
  {
    if |bs| < pos + 4 then End
    else if |bs| < pos + 8 then Bad(UnexpectedEof)
    else
      var length := ReadU32(bs[pos..pos + 4]);
      if |bs| < pos + 8 + length then Bad(UnexpectedEof)
      else
        var payload := bs[pos + 8..pos + 8 + length];
        var stored := ReadU32(bs[pos + 4..pos + 8]);
        if c.checksum(payload) != stored then Bad(CorruptedEntry(pos, stored, c.checksum(payload)))
        else
          match c.decode(payload)
          case None => Bad(Undecodable)
          case Some(e) => Entry(e, pos + 8 + length)
  }

  /** The entries from pos on. */
  function Parse<E>(c: Codec<E>, bs: seq<Byte>, pos: nat): Result<seq<E>, WalError>
    decreases |bs| - pos
  {
    match FrameAt(c, bs, pos)
    case End => Ok([])
    case Bad(x) => Err(x)
    case Entry(e, next) => Prepend(e, Parse(c, bs, next))
  }

  lemma FrameFields<E(!new)>(c: Codec<E>, e: E)
    requires Faithful(c) && Fits(c, e)
    ensures var f := Frame(c, e);
            && ReadU32(f[..4]) == |c.encode(e)| && ReadU32(f[4..8]) == c.checksum(c.encode(e))
            && f[8..] == c.encode(e)
  {
    hide U32, ReadU32;
    var f, payload := Frame(c, e), c.encode(e);
    U32RoundTrip(|payload|);
    U32RoundTrip(c.checksum(payload));
    assert f[..4] == U32(|payload|) && f[4..8] == U32(c.checksum(payload));
  }

  /** One whole frame is read as its entry. */
  lemma ParseFrame<E(!new)>(c: Codec<E>, before: seq<Byte>, e: E, after: seq<Byte>)
    requires Faithful(c) && Fits(c, e)
    ensures var bs := before + Frame(c, e) + after;
            FrameAt(c, bs, |before|) == Entry(e, |before| + |Frame(c, e)|)
  {
    hide Frame, ReadU32;
    var f := Frame(c, e);
    var bs, pos := before + f + after, |before|;
    FrameFields(c, e);
    assert bs[pos..pos + 4] == f[..4];
    assert bs[pos + 4..pos + 8] == f[4..8];
    assert bs[pos + 8..pos + 8 + |c.encode(e)|] == f[8..];
  }

  /** A frame that is cut short is read as the end of the log when less than its length field is left, and as
      an error otherwise; never as an entry. */
  lemma ParseTorn<E(!new)>(c: Codec<E>, before: seq<Byte>, e: E, n: nat)
    requires Faithful(c) && Fits(c, e) && n < |Frame(c, e)|
    ensures FrameAt(c, before + Frame(c, e)[..n], |before|) == if n < 4 then End else Bad(UnexpectedEof)
  {
    hide Frame, ReadU32;
    var f := Frame(c, e);
    var bs, pos := before + f[..n], |before|;
    if n >= 8 {
      FrameFields(c, e);
      assert bs[pos..pos + 4] == f[..4];
    }
  }

  lemma AtEnd<E>(c: Codec<E>, bs: seq<Byte>)
    ensures FrameAt(c, bs, |bs|) == End
  {
  }

  /** How many of the frames lie within the first n bytes. */
  function Whole<E>(c: Codec<E>, es: seq<E>, n: nat): (k: nat)
    ensures k <= |es|
    decreases |es|
  {
    if es == [] || n < |Frame(c, es[0])| then 0 else 1 + Whole(c, es[1..], n - |Frame(c, es[0])|)
  }

  /** Reading any prefix of a log gives exactly the entries that are whole in it, as long as fewer than four
      bytes are left over, and otherwise an error; never any other entry. */
  lemma {:induction false} ReadPrefix<E(!new)>(c: Codec<E>, before: seq<Byte>, es: seq<E>, n: nat)
    requires Faithful(c) && AllFit(c, es) && n <= |Frames(c, es)|
    ensures var k := Whole(c, es, n);
            Parse(c, before + Frames(c, es)[..n], |before|)
            == if n - |Frames(c, es[..k])| < 4 then Ok(es[..k]) else Err(UnexpectedEof)
    decreases |es|
  {
    hide Frame, FrameAt, Fits;
    var k := Whole(c, es, n);
    if es == [] {
      AtEnd(c, before);
      assert before + Frames(c, es)[..n] == before && es[..k] == [];
    } else if n < |Frame(c, es[0])| {
      assert Frames(c, es)[..n] == Frame(c, es[0])[..n] && es[..k] == [];
      ParseTorn(c, before, es[0], n);
    } else {
      var m := n - |Frame(c, es[0])|;
      ReadPrefix(c, before + Frame(c, es[0]), es[1..], m);
      ParseFrame(c, before, es[0], Frames(c, es[1..])[..m]);
      assert before + Frames(c, es)[..n] == before + Frame(c, es[0]) + Frames(c, es[1..])[..m];
      assert es[..k][1..] == es[1..][..k - 1] && es[..k] == [es[0]] + es[1..][..k - 1];
    }
  }

  /** Reading a whole log back gives exactly its entries. */
  lemma ReadBack<E(!new)>(c: Codec<E>, before: seq<Byte>, es: seq<E>)
    requires Faithful(c) && AllFit(c, es)
    ensures Parse(c, before + Frames(c, es), |before|) == Ok(es)
  {
    var n := |Frames(c, es)|;
    ReadPrefix(c, before, es, n);
    WholeAll(c, es);
    assert Frames(c, es)[..n] == Frames(c, es) && es[..|es|] == es;
  }

  lemma {:induction false} WholeAll<E>(c: Codec<E>, es: seq<E>)
    ensures Whole(c, es, |Frames(c, es)|) == |es|
    decreases |es|
  {
    if es != [] { WholeAll(c, es[1..]); }
  }

  /** Frames of one list after another are the frames of both: a batch is written like its entries one by one. */
  lemma {:induction false} FramesConcat<E>(c: Codec<E>, a: seq<E>, b: seq<E>)
    ensures Frames(c, a + b) == Frames(c, a) + Frames(c, b)
    decreases |a|
  {
    if a == [] {
      assert a + b == b;
    } else {
      FramesConcat(c, a[1..], b);
      assert (a + b)[1..] == a[1..] + b && (a + b)[0] == a[0];
    }
  }

  lemma FramesOne<E>(c: Codec<E>, e: E)
    ensures Frames(c, [e]) == Frame(c, e)
  {
    assert [e][1..] == [];
  }

  /** The file after appending the entries one by one, last one last. */
  function AppendedEach<E>(c: Codec<E>, file: seq<Byte>, es: seq<E>): seq<Byte>
    decreases |es|
  {
    if es == [] then file else AppendedEach(c, file, es[..|es| - 1]) + Frame(c, es[|es| - 1])
  }

  lemma {:induction false} BatchIsRepeatedAppend<E>(c: Codec<E>, file: seq<Byte>, es: seq<E>)
    ensures file + Frames(c, es) == AppendedEach(c, file, es)
    decreases |es|
  {
    hide Frame;
    if es == [] {
      assert file + Frames(c, es) == file;
    } else {
      var init, last := es[..|es| - 1], es[|es| - 1];
      BatchIsRepeatedAppend(c, file, init);
      FramesConcat(c, init, [last]);
      FramesOne(c, last);
      assert es == init + [last];
    }
  }

  // ----- The log file -----

  /** The file after bs was written at the cursor, over what was there. */
  function Overwritten(file: seq<Byte>, cursor: nat, bs: seq<Byte>): (r: seq<Byte>)
    requires cursor <= |file|
    ensures |r| >= cursor + |bs|
  {
    var end := cursor + |bs|;
    file[..cursor] + bs + file[if end <= |file| then end else |file|..]
  }

  /** Two writes in a row are one write of both. */
  lemma OverwrittenTwice(file: seq<Byte>, cursor: nat, a: seq<Byte>, b: seq<Byte>)
    requires cursor <= |file|
    ensures Overwritten(Overwritten(file, cursor, a), cursor + |a|, b) == Overwritten(file, cursor, a + b)
  {
    var once := Overwritten(file, cursor, a);
    assert once[..cursor + |a|] == file[..cursor] + a;
  }

  lemma OverwrittenEnd(file: seq<Byte>, bs: seq<Byte>)
    ensures Overwritten(file, |file|, bs) == file + bs
  {
  }

  class WAL<E(!new)> {
    const codec: Codec<E>
    const replicaId: ReplicaId
    var file: seq<Byte>
    var cursor: nat
    var entryCount: nat
    /** A temporary file of an earlier truncation is still there. */
    var leftover: bool
    ghost var created: nat
    ghost var entries: seq<E>

    /** The file holds the frames of the entries, and the next write goes to its end. */
    ghost predicate Valid()
      reads this
    {
      && Faithful(codec) && AllFit(codec, entries)
      && file == Header(replicaId, created) + Frames(codec, entries)
      && cursor == |file| && entryCount == |entries|
    }

    constructor OnFile(codec: Codec<E>, id: ReplicaId, disk: seq<Byte>, leftover: bool)
      ensures this.codec == codec && replicaId == id && file == disk && cursor == 0 && entryCount == 0
      ensures this.leftover == leftover && created == 0 && entries == []
    {
      this.codec, replicaId, file, cursor, entryCount, this.leftover := codec, id, disk, 0, 0, leftover;
      created, entries := 0, [];
    }

    /** Writes at the cursor, over what is there, and moves past it. */
    method Write(bs: seq<Byte>)
      requires cursor <= |file|
      modifies this`file, this`cursor
      ensures file == Overwritten(old(file), old(cursor), bs) && cursor == old(cursor) + |bs|
    {
      var end := cursor + |bs|;
      file := file[..cursor] + bs + file[if end <= |file| then end else |file|..];
      cursor := end;
    }

    /** Reads exactly n bytes, or runs to the end of the file and fails. */
    method ReadExact(n: nat) returns (bs: Option<seq<Byte>>)
      modifies this`cursor
      ensures if old(cursor) + n <= |file|
              then bs == Some(file[old(cursor)..old(cursor) + n]) && cursor == old(cursor) + n
              else bs == None && cursor == if old(cursor) <= |file| then |file| else old(cursor)
    {
      if cursor + n <= |file| {
        bs := Some(file[cursor..cursor + n]);
        cursor := cursor + n;
      } else {
        bs := None;
        cursor := if cursor <= |file| then |file| else cursor;
      }
    }

    /** Length, checksum, payload. */
    method WriteFrame(e: E)
      requires cursor <= |file|
      modifies this`file, this`cursor
      ensures file == Overwritten(old(file), old(cursor), Frame(codec, e))
      ensures cursor == old(cursor) + |Frame(codec, e)|
    {
      hide Overwritten, U32;
      var payload := codec.encode(e);
      Write(U32(|payload|));
      Write(U32(codec.checksum(payload)));
      Write(payload);
      OverwrittenTwice(old(file), old(cursor), U32(|payload|), U32(codec.checksum(payload)));
      OverwrittenTwice(old(file), old(cursor), U32(|payload|) + U32(codec.checksum(payload)), payload);
    }

    /** One frame at the cursor and one entry counted, whatever the file holds; a file of whole frames stays one. */
    method Append(e: E)
      requires cursor <= |file|
      modifies this`file, this`cursor, this`entryCount, this`entries
      ensures file == Overwritten(old(file), old(cursor), Frame(codec, e))
      ensures cursor == old(cursor) + |Frame(codec, e)| && entryCount == old(entryCount) + 1
      ensures entries == old(entries) + [e]
      ensures old(Valid()) && Fits(codec, e) ==> Valid()
    {
      hide Frame, Fits, Faithful, Header, Overwritten;
      WriteFrame(e);
      entryCount := entryCount + 1;
      FramesConcat(codec, entries, [e]);
      FramesOne(codec, e);
      OverwrittenEnd(old(file), Frame(codec, e));
      entries := entries + [e];
    }

    /** Several entries with one flush: the same bytes as one append after the other. */
    method AppendBatch(es: seq<E>)
      requires cursor <= |file|
      modifies this`file, this`cursor, this`entryCount, this`entries
      ensures file == Overwritten(old(file), old(cursor), Frames(codec, es))
      ensures cursor == old(cursor) + |Frames(codec, es)| && entryCount == old(entryCount) + |es|
      ensures entries == old(entries) + es
      ensures old(Valid()) && AllFit(codec, es) ==> Valid()
    {
      hide Frame, Fits, Faithful, Header, Overwritten, Frames, AllFit;
      OverwrittenNothing(file, cursor);
      FramesNone(codec, es);
      for i := 0 to |es|
        invariant file == Overwritten(old(file), old(cursor), Frames(codec, es[..i]))
        invariant cursor == old(cursor) + |Frames(codec, es[..i])|
        invariant entryCount == old(entryCount) + i && entries == old(entries)
      {
        OverwrittenTwice(old(file), old(cursor), Frames(codec, es[..i]), Frame(codec, es[i]));
        FramesStep(codec, es, i);
        WriteFrame(es[i]);
        entryCount := entryCount + 1;
      }
      assert es[..|es|] == es;
      OverwrittenEnd(old(file), Frames(codec, es));
      BatchValid(codec, Header(replicaId, created), entries, es);
      entries := entries + es;
    }

    /** Reads entries from the cursor until the file ends. */
    method ReadEntries() returns (r: Result<seq<E>, WalError>)
      modifies this`cursor
      ensures r == Parse(codec, file, old(cursor))
      ensures r.Ok? && old(cursor) <= |file| ==> cursor == |file|
    {
      var found := [];
      ghost var start := cursor;
      AfterNothing(Parse(codec, file, cursor));
      while true
        invariant start <= cursor && (cursor <= |file| || cursor == start)
        invariant Parse(codec, file, start) == After(found, Parse(codec, file, cursor))
        decreases |file| - cursor
      {
        ghost var pos := cursor;
        var step := ReadFrame();
        match step {
          case End =>
            assert After(found, Ok([])) == Ok(found) by { assert found + [] == found; }
            return Ok(found);
          case Bad(error) => return Err(error);
          case Entry(e, _) =>
            AfterEntry(found, e, Parse(codec, file, cursor));
            found := found + [e];
        }
      }
    }

    /** One frame: the length, the checksum, then as many bytes as the length says. */
    method ReadFrame() returns (f: Found<E>)
      modifies this`cursor
      ensures f == FrameAt(codec, file, old(cursor)) && old(cursor) <= cursor
      ensures old(cursor) <= |file| ==> cursor <= |file|
      ensures f.Entry? ==> cursor == f.next
      ensures f.End? && old(cursor) <= |file| ==> cursor == |file|
    {
      ghost var pos := cursor;
      var lengthBytes := ReadExact(4);
      if lengthBytes.None? {
        return End;
      }
      var length := ReadU32(lengthBytes.value);
      var crcBytes := ReadExact(4);
      if crcBytes.None? {
        return Bad(UnexpectedEof);
      }
      var stored := ReadU32(crcBytes.value);
      var payload := ReadExact(length);
      if payload.None? {
        return Bad(UnexpectedEof);
      }
      var computed := codec.checksum(payload.value);
      if computed != stored {
        return Bad(CorruptedEntry(cursor - length - 8, stored, computed));
      }
      match codec.decode(payload.value)
      case None => f := Bad(Undecodable);
      case Some(e) => f := Entry(e, cursor);
    }

    /** Reads everything after the header, whatever the file holds; a log that was only appended to gives back its
        entries, and appending can go on. */
    method ReadAll() returns (r: Result<seq<E>, WalError>)
      modifies this`cursor
      ensures r == Parse(codec, file, HEADER_SIZE)
      ensures old(Valid()) ==> Valid() && r == Ok(entries)
    {
      hide Frames, Faithful, AllFit, FrameAt;
      ghost var valid := Valid();
      if valid { ReadBack(codec, Header(replicaId, created), entries); }
      cursor := HEADER_SIZE;
      r := ReadEntries();
    }

    /** A fresh file with a header, written next to the old one, takes its place. The temporary file must not be
        there yet: one that a crash left behind makes this and every later truncation fail. */
    method TruncateAfterSnapshot(now: nat) returns (ok: bool)
      modifies this
      ensures ok <==> !old(leftover)
      ensures ok ==> file == Header(replicaId, now) && cursor == |file| && entryCount == 0 && entries == []
      ensures ok && Faithful(codec) ==> Valid()
      ensures !ok ==> unchanged(this)
      ensures leftover == old(leftover)
    {
      if leftover {
        return false;
      }
      var header := MAGIC + LittleEndian(VERSION, 2) + LittleEndian(replicaId, 8) + LittleEndian(now, 16);
      created, entries, entryCount := now, [], 0;
      file, cursor := header, |header|;
      ok := true;
    }
  }

  lemma OverwrittenNothing(file: seq<Byte>, cursor: nat)
    requires cursor <= |file|
    ensures Overwritten(file, cursor, []) == file
  {
  }

  lemma FramesNone<E>(c: Codec<E>, es: seq<E>)
    ensures Frames(c, es[..0]) == []
  {
  }

  lemma FramesStep<E>(c: Codec<E>, es: seq<E>, i: nat)
    requires i < |es|
    ensures Frames(c, es[..i + 1]) == Frames(c, es[..i]) + Frame(c, es[i])
  {
    assert es[..i + 1] == es[..i] + [es[i]];
    FramesConcat(c, es[..i], [es[i]]);
    FramesOne(c, es[i]);
  }

  lemma BatchValid<E>(c: Codec<E>, header: seq<Byte>, entries: seq<E>, es: seq<E>)
    ensures header + Frames(c, entries) + Frames(c, es) == header + Frames(c, entries + es)
    ensures AllFit(c, entries) && AllFit(c, es) ==> AllFit(c, entries + es)
  {
    hide Frames, Fits;
    FramesConcat(c, entries, es);
  }

  /** The result of reading on when some entries have been read already. */
  function After<E>(found: seq<E>, rest: Result<seq<E>, WalError>): Result<seq<E>, WalError> {
    match rest
    case Ok(es) => Ok(found + es)
    case Err(x) => Err(x)
  }

  lemma AfterNothing<E>(rest: Result<seq<E>, WalError>)
    ensures After([], rest) == rest
  {
    if rest.Ok? { assert [] + rest.value == rest.value; }
  }

  lemma AfterEntry<E>(found: seq<E>, e: E, rest: Result<seq<E>, WalError>)
    ensures After(found, Prepend(e, rest)) == After(found + [e], rest)
  {
    if rest.Ok? { assert found + ([e] + rest.value) == found + [e] + rest.value; }
  }

  // ----- Opening an existing file -----

  /** What is wrong with the header of a file, if anything; the replica id and the time are not looked at. */
  function HeaderError(disk: seq<Byte>): Option<WalError> {
    if |disk| < 4 then Some(UnexpectedEof)
    else if disk[..4] != MAGIC then Some(InvalidMagic)
    else if |disk| < 6 then Some(UnexpectedEof)
    else if disk[4] as int + 256 * disk[5] as int != VERSION
      then Some(UnsupportedVersion(disk[4] as int + 256 * disk[5] as int))
    else if |disk| < HEADER_SIZE then Some(UnexpectedEof)
    else None
  }

  /** What opening a file finds. */
  function Opened<E>(c: Codec<E>, disk: seq<Byte>): Result<seq<E>, WalError> {
    match HeaderError(disk)
    case Some(x) => Err(x)
    case None => Parse(c, disk, HEADER_SIZE)
  }

  /** A new log: the header only. A file that is already there is refused. */
  method Create<E(!new)>(c: Codec<E>, id: ReplicaId, now: nat, existing: Option<seq<Byte>>)
    returns (r: Result<WAL<E>, WalError>)
    ensures existing.Some? ==> r == Err(AlreadyExists)
    ensures existing.None? ==>
              && r.Ok? && fresh(r.value) && r.value.codec == c && r.value.replicaId == id
              && r.value.file == Header(id, now) && r.value.cursor == |r.value.file|
              && (Faithful(c) ==> r.value.Valid() && r.value.entries == [] && r.value.created == now)
  {
    if existing.Some? {
      return Err(AlreadyExists);
    }
    hide LittleEndian;
    var header := MAGIC + LittleEndian(VERSION, 2) + LittleEndian(id, 8) + LittleEndian(now, 16);
    var wal := new WAL<E>.OnFile(c, id, header, false);
    wal.cursor := HEADER_SIZE;
    wal.created := now;
    r := Ok(wal);
  }

  method Open<E(!new)>(c: Codec<E>, id: ReplicaId, disk: seq<Byte>, leftover: bool)
    returns (r: Result<WAL<E>, WalError>)
    ensures match Opened(c, disk)
            case Err(x) => r == Err(x)
            case Ok(es) =>
              && r.Ok? && fresh(r.value) && r.value.codec == c && r.value.replicaId == id
              && r.value.file == disk && r.value.cursor == |disk| && r.value.entryCount == |es|
              && r.value.leftover == leftover
  {
    var wal := new WAL<E>.OnFile(c, id, disk, leftover);
    var magic := wal.ReadExact(4);
    if magic.None? {
      return Err(UnexpectedEof);
    }
    if magic.value != MAGIC {
      return Err(InvalidMagic);
    }
    var version := wal.ReadExact(2);
    if version.None? {
      return Err(UnexpectedEof);
    }
    var number := version.value[0] as int + 256 * version.value[1] as int;
    if number != VERSION {
      return Err(UnsupportedVersion(number));
    }
    var idBytes := wal.ReadExact(8);
    if idBytes.None? {
      return Err(UnexpectedEof);
    }
    var createdBytes := wal.ReadExact(16);
    if createdBytes.None? {
      return Err(UnexpectedEof);
    }
    var found := wal.ReadEntries();
    if found.Err? {
      return Err(found.error);
    }
    wal.entryCount := |found.value|;
    wal.cursor := |wal.file|;
    r := Ok(wal);
  }

  lemma VersionBytes()
    ensures LittleEndian(VERSION, 2) == [1, 0]
  {
    assert LittleEndian(0, 1) == [0];
  }

  lemma HeaderStart(id: ReplicaId, created: nat)
    ensures var h := Header(id, created); h[..4] == MAGIC && h[4] == 1 && h[5] == 0
  {
    hide LittleEndian;
    VersionBytes();
    var h, rest := Header(id, created), LittleEndian(id, 8) + LittleEndian(created, 16);
    assert h == MAGIC + [1, 0] + rest;
  }

  /** Opening any prefix of a log gives exactly the entries that are whole in it, or fails; it succeeds exactly
      when the header is complete and fewer than four bytes are left over. */
  lemma OpenPrefix<E(!new)>(c: Codec<E>, id: ReplicaId, created: nat, es: seq<E>, n: nat)
    requires Faithful(c) && AllFit(c, es) && n <= HEADER_SIZE + |Frames(c, es)|
    ensures var disk := (Header(id, created) + Frames(c, es))[..n];
            Opened(c, disk) ==
            if n < HEADER_SIZE then Err(UnexpectedEof)
            else
              var k := Whole(c, es, n - HEADER_SIZE);
              if n - HEADER_SIZE - |Frames(c, es[..k])| < 4 then Ok(es[..k]) else Err(UnexpectedEof)
  {
    hide Header, Frames, Whole, Faithful, AllFit, Parse;
    var h := Header(id, created);
    var disk := (h + Frames(c, es))[..n];
    HeaderStart(id, created);
    assert n >= 4 ==> disk[..4] == h[..4];
    assert n >= 6 ==> disk[4] == h[4] && disk[5] == h[5];
    if n >= HEADER_SIZE {
      assert disk == h + Frames(c, es)[..n - HEADER_SIZE];
      ReadPrefix(c, h, es, n - HEADER_SIZE);
    }
  }

  /** Reopening a log and appending extends its entries. */
  method Reopen<E(!new)>(c: Codec<E>, id: ReplicaId, disk: seq<Byte>, ghost created: nat, ghost es: seq<E>)
    returns (wal: WAL<E>)
    requires Faithful(c) && AllFit(c, es) && disk == Header(id, created) + Frames(c, es)
    ensures fresh(wal) && wal.Valid() && wal.codec == c && wal.file == disk && wal.entries == es
  {
    hide Header, Frames, Faithful, AllFit, Parse;
    ReadBack(c, Header(id, created), es);
    HeaderStart(id, created);
    assert disk[..4] == Header(id, created)[..4];
    assert disk[4] == 1 && disk[5] == 0;
    var r := Open(c, id, disk, false);
    wal := r.value;
    wal.created := created;
    wal.entries := es;
  }

  // ----- What the format does not give -----

  /** A frame is read as its entry exactly when the payload's length fits the length field. */
  lemma FrameReadIffFits<E(!new)>(c: Codec<E>, before: seq<Byte>, e: E, after: seq<Byte>)
    requires Faithful(c)
    ensures FrameAt(c, before + Frame(c, e) + after, |before|) == Entry(e, |before| + |Frame(c, e)|) <==> Fits(c, e)
  {
    if Fits(c, e) {
      ParseFrame(c, before, e, after);
    } else {
      var bs, pos, payload := before + Frame(c, e) + after, |before|, c.encode(e);
      U32RoundTrip(|payload|);
      assert bs[pos..pos + 4] == U32(|payload|);
    }
  }

  /** A payload replaced by one of equal length and another checksum is reported, at its offset. */
  lemma CorruptionDetected<E(!new)>(c: Codec<E>, before: seq<Byte>, e: E, payload: seq<Byte>, after: seq<Byte>)
    requires Faithful(c) && Fits(c, e)
    requires |payload| == |c.encode(e)| && c.checksum(payload) != c.checksum(c.encode(e))
    ensures FrameAt(c, before + Frame(c, e)[..8] + payload + after, |before|)
            == Bad(CorruptedEntry(|before|, c.checksum(c.encode(e)), c.checksum(payload)))
  {
    hide ReadU32, Frame;
    var bs, pos := before + Frame(c, e)[..8] + payload + after, |before|;
    FrameFields(c, e);
    assert bs[pos..pos + 4] == Frame(c, e)[..4];
    assert bs[pos + 4..pos + 8] == Frame(c, e)[4..8];
    assert bs[pos + 8..pos + 8 + |payload|] == payload;
  }

  lemma GoodHeader(id: ReplicaId, created: nat, rest: seq<Byte>)
    ensures HeaderError(Header(id, created) + rest) == None
  {
    HeaderStart(id, created);
    hide Header;
    var h := Header(id, created);
    assert (h + rest)[..4] == h[..4] && (h + rest)[4] == h[4] && (h + rest)[5] == h[5];
  }

  /** The length read where fewer than four bytes of a torn frame stand before the next frame: the leftover bytes
      are its low end, and the first bytes of the true length its high end. */
  function Misread(tail: seq<Byte>, length: nat): nat
    requires |tail| < 4
  {
    ReadU32(tail + U32(length)[..4 - |tail|])
  }

  lemma MisreadValue(tail: seq<Byte>, length: nat)
    requires |tail| < 4
    ensures |tail| == 1 ==> Misread(tail, length) == tail[0] + 0x100 * (length % 0x100_0000)
    ensures |tail| == 2 ==> Misread(tail, length) == tail[0] + 0x100 * tail[1] + 0x1_0000 * (length % 0x1_0000)
    ensures |tail| == 3 ==>
              Misread(tail, length) == tail[0] + 0x100 * tail[1] + 0x1_0000 * tail[2] + 0x100_0000 * (length % 0x100)
  {
    var u := U32(length);
    var b0, b1, b2 := length % 256, length / 0x100 % 256, length / 0x1_0000 % 256;
    assert u[0] == b0 && u[1] == b1 && u[2] == b2;
    LowBytes(length);
    if |tail| == 1 {
      assert tail + u[..3] == [tail[0], b0, b1, b2];
    } else if |tail| == 2 {
      assert tail + u[..2] == [tail[0], tail[1], b0, b1];
    } else if |tail| == 3 {
      assert tail + u[..1] == [tail[0], tail[1], tail[2], b0];
    }
  }

  lemma LowBytes(k: nat)
    ensures k % 0x1_0000 == k % 256 + 0x100 * (k / 0x100 % 256)
    ensures k % 0x100_0000 == k % 256 + 0x100 * (k / 0x100 % 256) + 0x1_0000 * (k / 0x1_0000 % 256)
  {
    var a, b, d := k / 256, k / 0x1_0000, k / 0x100_0000;
    assert a == a % 256 + 256 * b && b == b % 256 + 256 * d && k == k % 256 + 256 * a;
  }

  /** Frames written behind a torn one are read as one frame with a misread length, which runs past the end of the
      file exactly when it says more than there is. */
  lemma TornTailFrame<E>(c: Codec<E>, before: seq<Byte>, tail: seq<Byte>, e: E, after: seq<Byte>)
    requires |tail| < 4
    ensures FrameAt(c, before + (tail + Frame(c, e) + after), |before|) == Bad(UnexpectedEof)
            <==> Misread(tail, |c.encode(e)|) > |tail| + |c.encode(e)| + |after|
  {
    hide ReadU32, U32;
    var rest := tail + Frame(c, e) + after;
    assert Frame(c, e)[..4 - |tail|] == U32(|c.encode(e)|)[..4 - |tail|];
    assert (before + rest)[|before|..|before| + 4] == rest[..4] == tail + U32(|c.encode(e)|)[..4 - |tail|];
  }

  /** Skipping whole frames. */
  lemma {:induction false} ParseSkip<E(!new)>(c: Codec<E>, before: seq<Byte>, es: seq<E>, rest: seq<Byte>)
    requires Faithful(c) && AllFit(c, es)
    ensures Parse(c, before + Frames(c, es) + rest, |before|)
            == After(es, Parse(c, before + Frames(c, es) + rest, |before| + |Frames(c, es)|))
    decreases |es|
  {
    hide Frame, FrameAt, Fits;
    var bs := before + Frames(c, es) + rest;
    if es == [] {
      AfterNothing(Parse(c, bs, |before|));
    } else {
      ParseFrame(c, before, es[0], Frames(c, es[1..]) + rest);
      assert bs == before + Frame(c, es[0]) + (Frames(c, es[1..]) + rest);
      ParseSkip(c, before + Frame(c, es[0]), es[1..], rest);
      assert bs == before + Frame(c, es[0]) + Frames(c, es[1..]) + rest;
      AfterPrepend(es[0], es[1..], Parse(c, bs, |before| + |Frames(c, es)|));
    }
  }

  lemma AfterPrepend<E>(e: E, es: seq<E>, rest: Result<seq<E>, WalError>)
    ensures Prepend(e, After(es, rest)) == After([e] + es, rest)
    ensures forall all: seq<E> :: all != [] && all[0] == e && all[1..] == es ==> all == [e] + es
  {
    if rest.Ok? { assert [e] + (es + rest.value) == [e] + es + rest.value; }
  }

  /** A log with any entries, torn within the length field of its last frame, opens without complaint. Once more
      frames are appended it cannot be opened as long as the misread length reaches beyond them, nor after that
      unless the 32 bits in the place of the checksum happen to be the checksum of what stands there. */
  lemma TornTailSpoilsAppends<E(!new)>(c: Codec<E>, id: ReplicaId, created: nat, es: seq<E>, tail: seq<Byte>, e: E,
                                       more: seq<E>)
    requires Faithful(c) && AllFit(c, es) && 1 <= |tail| <= 3
    ensures var torn := Header(id, created) + Frames(c, es) + tail;
            var rest := tail + Frame(c, e) + Frames(c, more);
            var length := Misread(tail, |c.encode(e)|);
            && Opened(c, torn) == Ok(es)
            && (length > |rest| - 8 ==> Opened(c, torn + Frame(c, e) + Frames(c, more)) == Err(UnexpectedEof))
            && (length <= |rest| - 8 && c.checksum(rest[8..8 + length]) != ReadU32(rest[4..8]) ==>
                  Opened(c, torn + Frame(c, e) + Frames(c, more)) ==
                  Err(CorruptedEntry(HEADER_SIZE + |Frames(c, es)|, ReadU32(rest[4..8]),
                                     c.checksum(rest[8..8 + length]))))
  {
    hide Header, Frame, Frames, HeaderError, Faithful, AllFit, U32, ReadU32, FrameAt;
    var before := Header(id, created) + Frames(c, es);
    var rest := tail + Frame(c, e) + Frames(c, more);
    OpenSkip(c, id, created, es, tail);
    OpenSkip(c, id, created, es, rest);
    TailEnds(c, before, tail);
    assert After(es, Ok([])) == Ok(es) by { assert es + [] == es; }
    assert before + tail + Frame(c, e) + Frames(c, more) == before + rest;
    TornTailFrame(c, before, tail, e, Frames(c, more));
    TornTailChecked(c, before, tail, e, Frames(c, more));
  }

  lemma OpenSkip<E(!new)>(c: Codec<E>, id: ReplicaId, created: nat, es: seq<E>, rest: seq<Byte>)
    requires Faithful(c) && AllFit(c, es)
    ensures var bs := Header(id, created) + Frames(c, es) + rest;
            Opened(c, bs) == After(es, Parse(c, bs, HEADER_SIZE + |Frames(c, es)|))
  {
    hide Header, Frames, HeaderError, Faithful, AllFit, Parse;
    var h := Header(id, created);
    assert h + Frames(c, es) + rest == h + (Frames(c, es) + rest);
    GoodHeader(id, created, Frames(c, es) + rest);
    ParseSkip(c, h, es, rest);
  }

  lemma TailEnds<E>(c: Codec<E>, before: seq<Byte>, tail: seq<Byte>)
    requires |tail| < 4
    ensures FrameAt(c, before + tail, |before|) == End
  {
  }

  lemma TornTailChecked<E>(c: Codec<E>, before: seq<Byte>, tail: seq<Byte>, e: E, after: seq<Byte>)
    requires |tail| < 4
    ensures var rest := tail + Frame(c, e) + after;
            var length := Misread(tail, |c.encode(e)|);
            length <= |rest| - 8 && c.checksum(rest[8..8 + length]) != ReadU32(rest[4..8]) ==>
              FrameAt(c, before + rest, |before|)
              == Bad(CorruptedEntry(|before|, ReadU32(rest[4..8]), c.checksum(rest[8..8 + length])))
  {
    hide ReadU32, U32;
    var rest, length := tail + Frame(c, e) + after, Misread(tail, |c.encode(e)|);
    var bs, pos := before + rest, |before|;
    assert Frame(c, e)[..4 - |tail|] == U32(|c.encode(e)|)[..4 - |tail|];
    assert bs[pos..pos + 4] == rest[..4] == tail + U32(|c.encode(e)|)[..4 - |tail|];
    assert bs[pos + 4..pos + 8] == rest[4..8];
    if length <= |rest| - 8 { assert bs[pos + 8..pos + 8 + length] == rest[8..8 + length]; }
  }

  /** So one entry appended after the tear makes the log unreadable, whatever the leftover bytes, the entries before
      and the entry itself, if its payload is not empty and shorter than 256 bytes. */
  lemma ShortPayloadLost<E(!new)>(c: Codec<E>, id: ReplicaId, created: nat, es: seq<E>, tail: seq<Byte>, e: E)
    requires Faithful(c) && AllFit(c, es) && 1 <= |tail| <= 3 && 1 <= |c.encode(e)| < 256
    ensures Opened(c, Header(id, created) + Frames(c, es) + tail + Frame(c, e)) == Err(UnexpectedEof)
  {
    hide Header, Frame, Frames, Opened, Misread, Faithful, AllFit;
    var torn := Header(id, created) + Frames(c, es) + tail;
    MisreadValue(tail, |c.encode(e)|);
    TornTailSpoilsAppends(c, id, created, es, tail, e, []);
    NoFrames(c);
    assert torn + Frame(c, e) + [] == torn + Frame(c, e);
  }

  lemma NoFrames<E>(c: Codec<E>)
    ensures Frames(c, []) == []
  {
  }
}
