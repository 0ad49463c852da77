/**
  log.dat byte by byte: records of a 4-byte big-endian length and a payload, appended
  one after the other, read back up to the first record that is torn or unreadable.
  The payload codec is a parameter; it only has to give back what it was given.
 */
module LogFile {
  import opened Types
  import opened NodeSpec

  type Byte = x: int | 0 <= x < 256

  datatype Codec = Codec(enc: Entry -> seq<Byte>, dec: seq<Byte> -> Option<Entry>)

  /** Decoding undoes the encoding of this entry, and its payload's length fits the prefix. */
  predicate FitsOne(c: Codec, e: Entry) {
    c.dec(c.enc(e)) == Some(e) && |c.enc(e)| < 0x1_0000_0000
  }

  /** The same for every entry of a list.  No codec fits all entries, as there are only finitely many such payloads. */
  predicate Fits(c: Codec, l: Log) {
    forall i {:trigger l[i]} | 0 <= i < |l| :: FitsOne(c, l[i])
  }

  function Position(l: Log, e: Entry): (k: nat)
    ensures e in l ==> k < |l| && l[k] == e
  {
    if l == [] || l[0] == e then 0 else Position(l[1..], e) + 1
  }

  /** Every list of fewer than 2^32 entries has a codec that fits it. */
  lemma SomeCodecFits(l: Log) returns (c: Codec)
    requires |l| < 0x1_0000_0000
    ensures Fits(c, l)
  {
    c := Codec(e => seq(Position(l, e), _ => 0), b => if |b| < |l| then Some(l[|b|]) else None);
  }

  function Be32(n: nat): (b: seq<Byte>)
    ensures |b| == 4
  {
    [n / 0x100_0000 % 256, n / 0x1_0000 % 256, n / 0x100 % 256, n % 256]
  }

  lemma PrefixRoundTrip(n: nat)
    requires n < 0x1_0000_0000
    ensures Val32(Be32(n)) == n
  {
    var k, l, m := n / 0x100, n / 0x1_0000, n / 0x100_0000;
    assert l == k / 0x100 && m == l / 0x100;
  }

  function Val32(b: seq<Byte>): nat
    requires |b| == 4
  {
    b[0] as int * 0x100_0000 + b[1] as int * 0x1_0000 + b[2] as int * 0x100 + b[3] as int
  }

  function Record(c: Codec, e: Entry): seq<Byte> {
    Be32(|c.enc(e)| % 0x1_0000_0000) + c.enc(e)
  }

  function Encoded(c: Codec, l: Log): seq<Byte> {
    if l == [] then [] else Encoded(c, l[..|l| - 1]) + Record(c, l[|l| - 1])
  }

  // ---- Reading --------------------------------------------------------------------

  /** The first record of b and its length in bytes, if it is whole and decodes. */
  function First(c: Codec, b: seq<Byte>): Option<(Entry, nat)> {
    if |b| < 4 || |b| < 4 + Val32(b[..4]) then None
    else match c.dec(b[4..4 + Val32(b[..4])])
      case None => None
      case Some(e) => Some((e, 4 + Val32(b[..4])))
  }

  // A parser takes one record off the front of a file, and looks at nothing behind it.

  type Parser = seq<Byte> -> Option<(Entry, nat)>

  predicate TakesOne(f: Parser, b: seq<Byte>) {
    f(b).Some? ==> 0 < f(b).value.1 <= |b| && f(b[..f(b).value.1]) == f(b)
  }

  predicate IgnoresRest(f: Parser, b: seq<Byte>, rest: seq<Byte>) {
    f(b).Some? ==> f(b + rest) == f(b)
  }

  ghost predicate Local(f: Parser) {
    && (forall b {:trigger TakesOne(f, b)} :: TakesOne(f, b))
    && (forall b, rest {:trigger IgnoresRest(f, b, rest)} :: IgnoresRest(f, b, rest))
  }

  /** The records before the first bad one, and how many bytes they take. */
  function Scan(f: Parser, b: seq<Byte>): (r: (Log, nat))
    ensures r.1 <= |b|
    decreases |b|
  {
    if f(b).None? || !(0 < f(b).value.1 <= |b|) then ([], 0)
    else
      var p := f(b).value;
      ([p.0] + Scan(f, b[p.1..]).0, p.1 + Scan(f, b[p.1..]).1)
  }

  /** Behind whole records, reading goes on with whatever follows. */
  lemma {:induction false} ScanOn(f: Parser, b: seq<Byte>, rest: seq<Byte>)
    requires Local(f) && Scan(f, b).1 == |b|
    ensures Scan(f, b + rest) == (Scan(f, b).0 + Scan(f, rest).0, |b| + Scan(f, rest).1)
    decreases |b|
  {
    assert TakesOne(f, b) && IgnoresRest(f, b, rest);
    if f(b).None? {
      assert b + rest == rest && [] + Scan(f, rest).0 == Scan(f, rest).0;
    } else {
      ScanStep(f, b);
      ScanOn(f, b[f(b).value.1..], rest);
      ScanJoin(f, b, rest, f(b).value);
    }
  }

  lemma {:induction false} ScanJoin(f: Parser, b: seq<Byte>, rest: seq<Byte>, p: (Entry, nat))
    requires f(b) == f(b + rest) == Some(p) && 0 < p.1 <= |b|
    requires Scan(f, b[p.1..] + rest) == (Scan(f, b[p.1..]).0 + Scan(f, rest).0, |b| - p.1 + Scan(f, rest).1)
    ensures Scan(f, b + rest) == (Scan(f, b).0 + Scan(f, rest).0, |b| + Scan(f, rest).1)
  {
    ScanStep(f, b);
    ScanStep(f, b + rest);
    assert (b + rest)[p.1..] == b[p.1..] + rest;
    Regroup([p.0], Scan(f, b[p.1..]).0, Scan(f, rest).0);
  }

  lemma Regroup(a: Log, b: Log, c: Log)
    ensures a + (b + c) == a + b + c
  {
  }

  lemma {:induction false} ScanStep(f: Parser, b: seq<Byte>)
    requires f(b).Some? && 0 < f(b).value.1 <= |b|
    ensures var p := f(b).value; Scan(f, b) == ([p.0] + Scan(f, b[p.1..]).0, p.1 + Scan(f, b[p.1..]).1)
  {
  }

  lemma {:induction false} ScanAgain(f: Parser, b: seq<Byte>)
    requires Local(f)
    ensures Scan(f, b[..Scan(f, b).1]) == Scan(f, b)
    decreases |b|
  {
    assert TakesOne(f, b);
    if f(b).Some? {
      var p := f(b).value;
      var tail := b[p.1..];
      ScanAgain(f, tail);
      var good, rest := b[..Scan(f, b).1], tail[..Scan(f, tail).1];
      assert good == b[..p.1] + rest && good[p.1..] == rest;
      assert IgnoresRest(f, b[..p.1], rest);
    } else {
      assert b[..0] == [] && TakesOne(f, []);
    }
  }

  function Framed(c: Codec): Parser {
    b => First(c, b)
  }

  lemma FramedLocal(c: Codec)
    ensures Local(Framed(c))
  {
    forall b: seq<Byte>, rest: seq<Byte>
      ensures IgnoresRest(Framed(c), b, rest)
    {
      if First(c, b).Some? { FirstGrows(c, b, rest); }
    }
    forall b: seq<Byte>
      ensures TakesOne(Framed(c), b)
    {
      if First(c, b).Some? { FirstAlone(c, b); }
    }
  }

  lemma FirstGrows(c: Codec, b: seq<Byte>, rest: seq<Byte>)
    requires First(c, b).Some?
    ensures First(c, b + rest) == First(c, b)
  {
    var n := Val32(b[..4]);
    assert (b + rest)[..4] == b[..4];
    assert (b + rest)[4..4 + n] == b[4..4 + n];
  }

  lemma FirstAlone(c: Codec, b: seq<Byte>)
    requires First(c, b).Some?
    ensures 0 < First(c, b).value.1 <= |b| && First(c, b[..First(c, b).value.1]) == First(c, b)
  {
    var k := First(c, b).value.1;
    assert b[..k][..4] == b[..4];
    assert b[..k][4..k] == b[4..k];
  }

  /** What ReadAllLogEntries finds in a file, and how much of the file it keeps. */
  function Read(c: Codec, b: seq<Byte>): (r: (Log, nat))
    ensures r.1 <= |b|
  {
    Scan(Framed(c), b)
  }

  lemma ReadStep(c: Codec, b: seq<Byte>)
    ensures First(c, b).None? ==> Read(c, b) == ([], 0)
    ensures First(c, b).Some? ==>
      var p := First(c, b).value;
      0 < p.1 <= |b| && Read(c, b) == ([p.0] + Read(c, b[p.1..]).0, p.1 + Read(c, b[p.1..]).1)
  {
    if First(c, b).Some? { FirstAlone(c, b); }
  }

  lemma ReadOn(c: Codec, b: seq<Byte>, rest: seq<Byte>)
    requires Read(c, b).1 == |b|
    ensures Read(c, b + rest) == (Read(c, b).0 + Read(c, rest).0, |b| + Read(c, rest).1)
  {
    FramedLocal(c);
    ScanOn(Framed(c), b, rest);
  }

  /** Reading cuts the file back to a point from which reading again finds the same and cuts nothing. */
  lemma ReadAgain(c: Codec, b: seq<Byte>)
    ensures Read(c, b[..Read(c, b).1]) == Read(c, b)
  {
    FramedLocal(c);
    ScanAgain(Framed(c), b);
  }

  // ---- Round trips ------------------------------------------------------------------

  lemma RecordShape(c: Codec, e: Entry)
    requires FitsOne(c, e)
    ensures var r, n := Record(c, e), |c.enc(e)|;
      |r| == 4 + n && Val32(r[..4]) == n && r[4..4 + n] == c.enc(e)
  {
    PrefixRoundTrip(|c.enc(e)|);
    assert Record(c, e)[..4] == Be32(|c.enc(e)|);
  }

  lemma RecordReads(c: Codec, e: Entry)
    requires FitsOne(c, e)
    ensures Read(c, Record(c, e)) == ([e], |Record(c, e)|)
  {
    var r := Record(c, e);
    RecordShape(c, e);
    assert First(c, r) == Some((e, |r|));
    ReadStep(c, r);
    ReadStep(c, []);
    assert r[|r|..] == [] && [e] + [] == [e];
  }

  /** For a payload that decodes, the record reads back exactly if its length fits the prefix; beyond, the prefix wraps around. */
  lemma RecordReadsIff(c: Codec, e: Entry)
    requires c.dec(c.enc(e)) == Some(e)
    ensures Read(c, Record(c, e)) == ([e], |Record(c, e)|) <==> |c.enc(e)| < 0x1_0000_0000
  {
    if |c.enc(e)| < 0x1_0000_0000 {
      RecordReads(c, e);
    } else {
      WrappedLength(c, e);
      ReadStep(c, Record(c, e));
    }
  }

  /** An oversized payload is taken for one that ends before it does. */
  lemma WrappedLength(c: Codec, e: Entry)
    requires |c.enc(e)| >= 0x1_0000_0000
    ensures First(c, Record(c, e)).Some? ==> First(c, Record(c, e)).value.1 < |Record(c, e)|
  {
    var r := Record(c, e);
    PrefixRoundTrip(|c.enc(e)| % 0x1_0000_0000);
    assert r[..4] == Be32(|c.enc(e)| % 0x1_0000_0000);
  }

  /** What was written is what is read. */
  lemma {:induction false} WholeFileReads(c: Codec, l: Log)
    requires Fits(c, l)
    ensures Read(c, Encoded(c, l)) == (l, |Encoded(c, l)|)
  {
    if l == [] {
      ReadStep(c, []);
    } else {
      var front, e := l[..|l| - 1], l[|l| - 1];
      WholeFileReads(c, front);
      RecordReads(c, e);
      ReadOn(c, Encoded(c, front), Record(c, e));
      assert front + [e] == l;
    }
  }

  /** A record cut short is no record. */
  lemma TornRecord(c: Codec, e: Entry, cut: nat)
    requires FitsOne(c, e) && cut < |Record(c, e)|
    ensures Read(c, Record(c, e)[..cut]) == ([], 0)
  {
    var r := Record(c, e);
    RecordShape(c, e);
    if cut >= 4 { assert r[..cut][..4] == r[..4]; }
    ReadStep(c, r[..cut]);
  }

  /** k is the number of records of l that are whole in the first cut bytes. */
  predicate WholeRecords(c: Codec, l: Log, cut: nat, k: nat) {
    k <= |l| && |Encoded(c, l[..k])| <= cut && (k < |l| ==> cut < |Encoded(c, l[..k + 1])|)
  }

  lemma {:induction false} EncodedOne(c: Codec, l: Log, k: nat)
    requires k < |l|
    ensures Encoded(c, l[..k + 1]) == Encoded(c, l[..k]) + Record(c, l[k])
  {
    assert l[..k + 1][..k] == l[..k];
  }

  lemma {:induction false} EncodedPrefix(c: Codec, l: Log, k: nat)
    requires k <= |l|
    ensures Encoded(c, l[..k]) <= Encoded(c, l)
    decreases |l| - k
  {
    if k == |l| {
      assert l[..k] == l;
    } else {
      EncodedOne(c, l, k);
      EncodedPrefix(c, l, k + 1);
    }
  }

  lemma {:induction false} EncodedConcat(c: Codec, l: Log, m: Log)
    ensures Encoded(c, l + m) == Encoded(c, l) + Encoded(c, m)
    decreases |m|
  {
    if m == [] {
      assert l + m == l;
    } else {
      EncodedConcat(c, l, m[..|m| - 1]);
      assert (l + m)[..|l + m| - 1] == l + m[..|m| - 1];
    }
  }

  /** For every byte cut exactly one number of records is whole. */
  lemma {:induction false} WholeRecordsExist(c: Codec, l: Log, cut: nat) returns (k: nat)
    requires cut <= |Encoded(c, l)|
    ensures WholeRecords(c, l, cut, k)
  {
    k := |l|;
    assert l[..k] == l;
    while cut < |Encoded(c, l[..k])|
      invariant k <= |l| && (k < |l| ==> cut < |Encoded(c, l[..k + 1])|)
      decreases k
    {
      k := k - 1;
    }
  }

  /** Torn-write recovery: of a file cut at any byte, exactly the whole records are read, and exactly they are kept. */
  lemma {:induction false} TornFileReads(c: Codec, l: Log, cut: nat, k: nat)
    requires Fits(c, l) && cut <= |Encoded(c, l)| && WholeRecords(c, l, cut, k)
    ensures Read(c, Encoded(c, l)[..cut]) == (l[..k], |Encoded(c, l[..k])|)
  {
    var whole := Encoded(c, l[..k]);
    var torn := TornTail(c, l, cut, k);
    WholeFileReads(c, l[..k]);
    ReadOn(c, whole, torn);
    assert l[..k] + [] == l[..k];
  }

  /** Behind the whole records there is nothing, or a record cut short. */
  lemma TornTail(c: Codec, l: Log, cut: nat, k: nat) returns (torn: seq<Byte>)
    requires Fits(c, l) && cut <= |Encoded(c, l)| && WholeRecords(c, l, cut, k)
    ensures Encoded(c, l)[..cut] == Encoded(c, l[..k]) + torn && Read(c, torn) == ([], 0)
  {
    var all, whole := Encoded(c, l), Encoded(c, l[..k]);
    EncodedPrefix(c, l, k);
    torn := all[|whole|..cut];
    assert all[..|whole|] == whole;
    assert all[..cut] == all[..|whole|] + torn;
    if k < |l| {
      EncodedPrefix(c, l, k + 1);
      EncodedOne(c, l, k);
      CutInside(all, whole, Record(c, l[k]), cut);
      TornRecord(c, l[k], cut - |whole|);
    } else {
      assert l[..k] == l && torn == [];
      ReadStep(c, []);
    }
  }

  lemma CutInside(all: seq<Byte>, whole: seq<Byte>, r: seq<Byte>, cut: nat)
    requires whole + r <= all && |whole| <= cut <= |whole| + |r|
    ensures all[|whole|..cut] == r[..cut - |whole|]
  {
    assert all[..|whole| + |r|] == whole + r;
  }

  /** A crash while appending: what was there before and the whole new records survive. */
  lemma {:induction false} TornAppendReads(c: Codec, l: Log, tail: Log, cut: nat, k: nat)
    requires Fits(c, l) && Fits(c, tail) && cut <= |Encoded(c, tail)| && WholeRecords(c, tail, cut, k)
    ensures Read(c, Encoded(c, l) + Encoded(c, tail)[..cut]) == (l + tail[..k], |Encoded(c, l + tail[..k])|)
  {
    WholeFileReads(c, l);
    TornFileReads(c, tail, cut, k);
    ReadBehind(c, l, Encoded(c, tail)[..cut], tail[..k]);
  }

  lemma {:induction false} ReadBehind(c: Codec, l: Log, rest: seq<Byte>, m: Log)
    requires Read(c, Encoded(c, l)) == (l, |Encoded(c, l)|) && Read(c, rest) == (m, |Encoded(c, m)|)
    ensures Read(c, Encoded(c, l) + rest) == (l + m, |Encoded(c, l + m)|)
  {
    ReadParts(c, Encoded(c, l), rest, l, m, |Encoded(c, m)|);
    EncodedSize(c, l, m);
  }

  lemma ReadParts(c: Codec, b: seq<Byte>, rest: seq<Byte>, l: Log, m: Log, n: nat)
    requires Read(c, b) == (l, |b|) && Read(c, rest) == (m, n)
    ensures Read(c, b + rest) == (l + m, |b| + n)
  {
    ReadOn(c, b, rest);
  }

  lemma {:induction false} EncodedSize(c: Codec, l: Log, m: Log)
    ensures |Encoded(c, l + m)| == |Encoded(c, l)| + |Encoded(c, m)|
  {
    EncodedConcat(c, l, m);
  }

  /** Whatever bytes were found, after one read later appends are read back behind what was read. */
  lemma {:induction false} AppendAfterRead(c: Codec, b: seq<Byte>, tail: Log)
    requires Fits(c, tail)
    ensures var (l, n) := Read(c, b); Read(c, b[..n] + Encoded(c, tail)).0 == l + tail
  {
    var (l, n) := Read(c, b);
    ReadAgain(c, b);
    ReadOn(c, b[..n], Encoded(c, tail));
    WholeFileReads(c, tail);
  }

  // ---- Bytes and the abstract disk --------------------------------------------------------

  /**
    A crash at any byte of the append in a merge leaves, for the next start, the entries the
    model's crash in a merge leaves after some number of whole records.
   */
  lemma TornMerge(c: Codec, n: NodeState, req: AppendRequest, bytes: seq<Byte>, cut: nat) returns (records: nat)
    requires var d := Divergence(n, req.prevIndex, req.entries, 0);
      && d < |req.entries| && Read(c, bytes) == (TruncateFrom(n, req.prevIndex + 1 + d).disk.entries, |bytes|)
      && Fits(c, req.entries[d..]) && cut <= |Encoded(c, req.entries[d..])|
    ensures var d := Divergence(n, req.prevIndex, req.entries, 0);
      Read(c, bytes + Encoded(c, req.entries[d..])[..cut]).0 == MergePart(n, req, records).disk.entries
  {
    var d := Divergence(n, req.prevIndex, req.entries, 0);
    var tail, kept := req.entries[d..], TruncateFrom(n, req.prevIndex + 1 + d).disk.entries;
    records := WholeRecordsExist(c, tail, cut);
    MergePartDisk(n, req, records, d, kept, tail);
    TornBehind(c, bytes, kept, tail, cut, records);
  }

  lemma {:induction false} MergePartDisk(n: NodeState, req: AppendRequest, records: nat, d: nat, kept: Log, tail: Log)
    requires d == Divergence(n, req.prevIndex, req.entries, 0) < |req.entries| && tail == req.entries[d..] && records <= |tail|
    requires kept == TruncateFrom(n, req.prevIndex + 1 + d).disk.entries
    ensures MergePart(n, req, records).disk.entries == kept + tail[..records]
  {
    assert tail[..records] == req.entries[d..Min(d + records, |req.entries|)];
  }

  /** The same for the one record of a client write: it is there, or it is not. */
  lemma {:induction false} TornWrite(c: Codec, n: NodeState, x: Command, bytes: seq<Byte>, cut: nat)
    requires Read(c, bytes) == (n.disk.entries, |bytes|) && FitsOne(c, Entry(n.term, LastIndex(n) + 1, x))
    requires cut <= |Encoded(c, [Entry(n.term, LastIndex(n) + 1, x)])|
    ensures var l := Read(c, bytes + Encoded(c, [Entry(n.term, LastIndex(n) + 1, x)])[..cut]).0;
      l == n.disk.entries || l == AppendLocal(n, x).disk.entries
  {
    var tail := [Entry(n.term, LastIndex(n) + 1, x)];
    var k := WholeRecordsExist(c, tail, cut);
    TornBehind(c, bytes, n.disk.entries, tail, cut, k);
    assert k == 0 ==> tail[..k] == [] && n.disk.entries + [] == n.disk.entries;
    assert k == 1 ==> tail[..k] == tail;
  }

  lemma {:induction false} TornBehind(c: Codec, bytes: seq<Byte>, l: Log, tail: Log, cut: nat, k: nat)
    requires Read(c, bytes) == (l, |bytes|) && Fits(c, tail) && cut <= |Encoded(c, tail)| && WholeRecords(c, tail, cut, k)
    ensures Read(c, bytes + Encoded(c, tail)[..cut]).0 == l + tail[..k]
  {
    TornFileReads(c, tail, cut, k);
    ReadParts(c, bytes, Encoded(c, tail)[..cut], l, tail[..k], |Encoded(c, tail[..k])|);
  }

  // ---- The file -----------------------------------------------------------------------

  /** The entries read up to offset, with what reading on from there would add, are what the whole file reads as. */
  predicate ReadSoFar(c: Codec, b: seq<Byte>, entries: Log, offset: nat) {
    offset <= |b| && Read(c, b) == (entries + Read(c, b[offset..]).0, offset + Read(c, b[offset..]).1)
  }

  lemma ReadMore(c: Codec, b: seq<Byte>, entries: Log, offset: nat)
    requires ReadSoFar(c, b, entries, offset) && First(c, b[offset..]).Some?
    ensures var p := First(c, b[offset..]).value;
      0 < p.1 && ReadSoFar(c, b, entries + [p.0], offset + p.1)
  {
    var rest, p := b[offset..], First(c, b[offset..]).value;
    ReadStep(c, rest);
    assert rest[p.1..] == b[offset + p.1..];
    Regroup(entries, [p.0], Read(c, rest[p.1..]).0);
  }

  lemma ReadDone(c: Codec, b: seq<Byte>, entries: Log, offset: nat)
    requires ReadSoFar(c, b, entries, offset) && First(c, b[offset..]).None?
    ensures Read(c, b) == (entries, offset)
  {
    ReadStep(c, b[offset..]);
    assert entries + [] == entries;
  }

  class LogDat {
    const codec: Codec
    var bytes: seq<Byte>

    constructor (codec: Codec)
      ensures this.codec == codec && bytes == []
    {
      this.codec, bytes := codec, [];
    }

    method AppendLogEntries(entries: Log)
      modifies this
      ensures bytes == old(bytes) + Encoded(codec, entries)
    {
      for i := 0 to |entries|
        invariant bytes == old(bytes) + Encoded(codec, entries[..i])
      {
        EncodedOne(codec, entries, i);
        bytes := bytes + Record(codec, entries[i]);
      }
      assert entries[..|entries|] == entries;
    }

    method ReadAllLogEntries() returns (entries: Log)
      modifies this
      ensures (entries, bytes) == (Read(codec, old(bytes)).0, old(bytes)[..Read(codec, old(bytes)).1])
    {
      entries := [];
      var offset := 0;
      assert bytes[0..] == bytes && [] + Read(codec, bytes).0 == Read(codec, bytes).0;
      while offset < |bytes|
        invariant bytes == old(bytes) && ReadSoFar(codec, bytes, entries, offset)
      {
        var record := ReadRecord(codec, bytes[offset..]);
        if record.None? { break; }
        ReadMore(codec, bytes, entries, offset);
        entries, offset := entries + [record.value.0], offset + record.value.1;
      }
      ReadDone(codec, bytes, entries, offset);
      bytes := bytes[..offset];
    }

    /** Temporary file and rename: the new contents replace the old ones in one step. */
    method RewriteLog(entries: Log)
      modifies this
      ensures bytes == Encoded(codec, entries)
    {
      var tmp: seq<Byte> := [];
      for i := 0 to |entries|
        invariant tmp == Encoded(codec, entries[..i])
      {
        EncodedOne(codec, entries, i);
        tmp := tmp + Record(codec, entries[i]);
      }
      assert entries[..|entries|] == entries;
      bytes := tmp;
    }

    method TruncateLogFrom(index: nat)
      modifies this
      ensures bytes == Encoded(codec, Before(Read(codec, old(bytes)).0, index))
    {
      var entries := ReadAllLogEntries();
      var kept := KeepBefore(entries, index);
      RewriteLog(kept);
    }
  }

  /** One round of the read loop: length prefix, payload, decode; nothing if any of the three fails. */
  method ReadRecord(codec: Codec, rest: seq<Byte>) returns (record: Option<(Entry, nat)>)
    ensures record == First(codec, rest)
  {
    if |rest| < 4 { return None; }
    var length := Val32(rest[..4]);
    if |rest| < 4 + length { return None; }
    var e := codec.dec(rest[4..4 + length]);
    if e.None? { return None; }
    return Some((e.value, 4 + length));
  }

  method KeepBefore(entries: Log, index: nat) returns (kept: Log)
    ensures kept == Before(entries, index)
  {
    kept := [];
    for i := 0 to |entries|
      invariant kept == Before(entries[..i], index)
    {
      assert entries[..i + 1][..i] == entries[..i];
      if entries[i].index < index { kept := kept + [entries[i]]; }
    }
    assert entries[..|entries|] == entries;
  }
}
