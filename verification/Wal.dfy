/** The write-ahead log: numbered, checksummed entries, appended by the writer and filtered by the reader. */
module Wal {
  import opened Types
  import opened Runs
  import Fnv

  const WAL_VERSION := 1

  /** What is logged of an operation; a cancel carries its outcome, which replay ignores. */
  datatype Record = Record(command: Command, success: Option<bool>)

  datatype Entry = Entry(seqNo: nat, version: nat, checksum: Option<bv64>, record: Record)

  /** One line of the file. Decoding undoes encoding, so a whole line stands for its entry. */
  datatype Line = Blank | Malformed | ReadError | Parsed(entry: Entry)

  /** The bytes the checksum covers: the serialised sequence number and record. */
  type Encoding = (nat, Record) -> seq<bv8>

  function Digest(encoding: Encoding, seqNo: nat, record: Record): bv64 {
    Fnv.Hash(encoding(seqNo, record))
  }

  /** Entries without a checksum are trusted. */
  predicate Verified(encoding: Encoding, e: Entry) {
    e.checksum == None || e.checksum.value == Digest(encoding, e.seqNo, e.record)
  }

  /** What the reader yields: everything readable, in order, up to the first read error. */
  function Accepted(encoding: Encoding, lines: seq<Line>): seq<Entry>
    decreases lines
  {
    if lines == [] || lines[0].ReadError? then []
    else
      (if lines[0].Parsed? && Verified(encoding, lines[0].entry) then [lines[0].entry] else [])
      + Accepted(encoding, lines[1..])
  }

  /** The entry the writer makes of a record. */
  function Sealed(encoding: Encoding, seqNo: nat, record: Record): (e: Entry)
    ensures Verified(encoding, e)
  {
    Entry(seqNo, WAL_VERSION, Some(Digest(encoding, seqNo, record)), record)
  }

  lemma {:induction false} AcceptedAppend(encoding: Encoding, lines: seq<Line>, l: Line)
    ensures Accepted(encoding, lines + [l]) == if ReadError in lines then Accepted(encoding, lines)
                                               else Accepted(encoding, lines) + Accepted(encoding, [l])
    decreases lines
  {
    hide Verified;
    if lines == [] {
      assert lines + [l] == [l];
    } else {
      assert (lines + [l])[1..] == lines[1..] + [l];
      AcceptedAppend(encoding, lines[1..], l);
    }
  }

  /** What one line contributes: its entry, if it parses and has no checksum or the digest of its bytes. */
  function OfLine(encoding: Encoding, l: Line): seq<Entry> {
    if l.Parsed? && (l.entry.checksum == None
                     || l.entry.checksum == Some(Fnv.Hash(encoding(l.entry.seqNo, l.entry.record))))
    then [l.entry]
    else []
  }

  /** What is read is what each line contributes, in order, up to the first read error; nothing else stops the
      reader. */
  lemma {:induction false} LineByLine(encoding: Encoding, before: seq<Line>, l: Line, after: seq<Line>)
    requires ReadError !in before
    ensures Accepted(encoding, before + [l] + after)
         == Accepted(encoding, before)
          + (if l.ReadError? then [] else OfLine(encoding, l) + Accepted(encoding, after))
    decreases before
  {
    hide Verified, OfLine;
    var all := before + [l] + after;
    if before == [] {
      assert all == [l] + after && all[1..] == after;
      LineYields(encoding, l);
    } else {
      assert all[1..] == before[1..] + [l] + after;
      LineByLine(encoding, before[1..], l, after);
    }
  }

  lemma {:induction false} LineYields(encoding: Encoding, l: Line)
    ensures OfLine(encoding, l) == if l.Parsed? && Verified(encoding, l.entry) then [l.entry] else []
  {
  }

  /** Changing one byte of what an entry's checksum covers makes the reader drop the entry. */
  lemma {:induction false} OneByteRejected(encoding: Encoding, e: Entry, seqNo: nat, record: Record, i: nat)
    requires e.checksum.Some? && Verified(encoding, e)
    requires var s, t := encoding(e.seqNo, e.record), encoding(seqNo, record);
             |s| == |t| && i < |s| && s[i] != t[i] && forall j :: 0 <= j < |s| && j != i ==> s[j] == t[j]
    ensures Accepted(encoding, [Parsed(e.(seqNo := seqNo, record := record))]) == []
  {
    Fnv.OneByteShows(encoding(e.seqNo, e.record), encoding(seqNo, record), i);
  }

  // ---- Sequence numbers ----

  predicate Rising(es: seq<Entry>) {
    forall i, j :: 0 <= i < j < |es| ==> es[i].seqNo < es[j].seqNo
  }

  /** The highest number read, zero if none. */
  function MaxSeq(es: seq<Entry>): (n: nat)
    ensures forall e :: e in es ==> e.seqNo <= n
    ensures n == 0 || exists e :: e in es && e.seqNo == n
    decreases es
  {
    if es == [] then 0
    else
      var before := MaxSeq(es[..|es| - 1]);
      var last := es[|es| - 1];
      assert es == es[..|es| - 1] + [last];
      if last.seqNo > before then last.seqNo else before
  }

  lemma {:induction false} MaxSeqAppend(es: seq<Entry>, e: Entry)
    ensures MaxSeq(es + [e]) == if e.seqNo > MaxSeq(es) then e.seqNo else MaxSeq(es)
  {
    assert (es + [e])[..|es|] == es;
  }

  /** An entry that cannot be read back as an entry. */
  predicate Lost(encoding: Encoding, l: Line) {
    l.Blank? || l.Malformed? || (l.Parsed? && !Verified(encoding, l.entry))
  }

  /** The lines after some were lost; no line is lost into a different entry. */
  predicate Damaged(encoding: Encoding, lines: seq<Line>, lines': seq<Line>) {
    |lines| == |lines'| && forall i :: 0 <= i < |lines| ==> lines'[i] == lines[i] || Lost(encoding, lines'[i])
  }

  lemma {:induction false} RisingTail(e: Entry, es: seq<Entry>)
    requires Rising([e] + es)
    ensures Rising(es) && forall x :: x in es ==> e.seqNo < x.seqNo
  {
    var all := [e] + es;
    forall i, j | 0 <= i < j < |es|
      ensures es[i].seqNo < es[j].seqNo
    {
      assert all[i + 1] == es[i] && all[j + 1] == es[j];
    }
    forall x | x in es
      ensures e.seqNo < x.seqNo
    {
      var i :| 0 <= i < |es| && es[i] == x;
      assert all[0] == e && all[i + 1] == x;
    }
  }

  lemma {:induction false} RisingCons(e: Entry, es: seq<Entry>)
    requires Rising(es) && forall x :: x in es ==> e.seqNo < x.seqNo
    ensures Rising([e] + es)
  {
    var all := [e] + es;
    forall i, j | 0 <= i < j < |all|
      ensures all[i].seqNo < all[j].seqNo
    {
      assert all[j] == es[j - 1];
      assert i > 0 ==> all[i] == es[i - 1];
    }
  }

  lemma {:induction false} RisingAppend(es: seq<Entry>, e: Entry)
    requires Rising(es) && forall x :: x in es ==> x.seqNo < e.seqNo
    ensures Rising(es + [e])
  {
    var all := es + [e];
    forall i, j | 0 <= i < j < |all|
      ensures all[i].seqNo < all[j].seqNo
    {
      assert all[i] == es[i] && es[i] in es;
    }
  }

  /** What is left of a log with lost lines still has rising numbers, none of them new. */
  lemma {:induction false} RisingSurvives(encoding: Encoding, lines: seq<Line>, lines': seq<Line>)
    requires Damaged(encoding, lines, lines') && ReadError !in lines && Rising(Accepted(encoding, lines))
    ensures Rising(Accepted(encoding, lines'))
    ensures forall e :: e in Accepted(encoding, lines') ==> e in Accepted(encoding, lines)
    decreases lines
  {
    hide Verified, Rising;
    if lines != [] {
      var rest, rest' := Accepted(encoding, lines[1..]), Accepted(encoding, lines'[1..]);
      if lines[0].Parsed? && Verified(encoding, lines[0].entry) {
        RisingTail(lines[0].entry, rest);
        RisingSurvives(encoding, lines[1..], lines'[1..]);
        RisingCons(lines[0].entry, rest');
      } else {
        assert Accepted(encoding, lines) == [] + rest == rest;
        RisingSurvives(encoding, lines[1..], lines'[1..]);
      }
      assert [] + rest' == rest';
    }
  }

  // ---- The file, its writer and its reader ----

  /** What outlives a crash. */
  class LogFile {
    var lines: seq<Line>

    constructor ()
      ensures lines == []
    {
      lines := [];
    }
  }

  class WalWriter {
    const file: LogFile
    const encoding: Encoding
    var seqNo: nat

    constructor (file: LogFile, encoding: Encoding)
      ensures this.file == file && this.encoding == encoding && seqNo == 0
    {
      this.file, this.encoding, seqNo := file, encoding, 0;
    }

    method SetSeq(n: nat)
      modifies this
      ensures seqNo == n
    {
      seqNo := n;
    }

    /** Numbers, seals and appends the entry. */
    method Write(record: Record) returns (number: nat)
      modifies this, file
      ensures number == seqNo == old(seqNo) + 1
      ensures Sealed(encoding, number, record)
           == Entry(number, 1, Some(Fnv.Hash(encoding(number, record))), record)
      ensures file.lines == old(file.lines) + [Parsed(Sealed(encoding, number, record))]
    {
      seqNo := seqNo + 1;
      var body := encoding(seqNo, record);
      var digest := Fnv.Fnv1a64(body);
      file.lines := file.lines + [Parsed(Entry(seqNo, WAL_VERSION, Some(digest), record))];
      number := seqNo;
    }
  }

  class WalReader {
    const encoding: Encoding
    var lines: seq<Line>

    constructor (file: LogFile, encoding: Encoding)
      ensures this.encoding == encoding && lines == file.lines
    {
      this.encoding, lines := encoding, file.lines;
    }

    /** The next entry that can be read; `None` at the end and at a read error. */
    method Next() returns (entry: Option<Entry>)
      modifies this
      ensures entry == None ==> Accepted(encoding, old(lines)) == []
      ensures entry.Some? ==>
                Accepted(encoding, old(lines)) == [entry.value] + Accepted(encoding, lines) && |lines| < |old(lines)|
      ensures |lines| <= |old(lines)|
    {
      while lines != []
        invariant |lines| <= |old(lines)| && Accepted(encoding, lines) == Accepted(encoding, old(lines))
        decreases |lines|
      {
        var line := lines[0];
        lines := lines[1..];
        if line.ReadError? {
          return None;
        }
        if line.Parsed? {
          var e := line.entry;
          var digest := Fnv.Fnv1a64(encoding(e.seqNo, e.record));
          if e.checksum == None || e.checksum.value == digest {
            return Some(e);
          }
        }
      }
      entry := None;
    }
  }

  lemma {:induction false} NothingRises()
    ensures Rising([])
  {
  }

  /** Entries written one after the other are read back whole, in order. */
  lemma {:induction false} WrittenIsRead(encoding: Encoding, seqNo: nat, records: seq<Record>)
    ensures var es := Written(encoding, seqNo, records);
            Accepted(encoding, AsLines(es)) == es && Rising(es) && forall e :: e in es ==> e.seqNo > seqNo
    decreases records
  {
    hide Digest, Verified, Rising;
    if records == [] {
      NothingRises();
    } else {
      WrittenIsRead(encoding, seqNo + 1, records[1..]);
      RisingCons(Sealed(encoding, seqNo + 1, records[0]), Written(encoding, seqNo + 1, records[1..]));
      var es := Written(encoding, seqNo, records);
      assert AsLines(es)[1..] == AsLines(es[1..]);
    }
  }

  function Written(encoding: Encoding, seqNo: nat, records: seq<Record>): seq<Entry>
    decreases records
  {
    if records == [] then [] else [Sealed(encoding, seqNo + 1, records[0])] + Written(encoding, seqNo + 1, records[1..])
  }

  function AsLines(es: seq<Entry>): seq<Line> {
    seq(|es|, i requires 0 <= i < |es| => Parsed(es[i]))
  }
}
