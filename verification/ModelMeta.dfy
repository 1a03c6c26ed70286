/** The text of `model.meta`: written by the data generator, read when a node looks at a model. */
module ModelMeta {
  import opened Bytes
  import opened Text

  datatype Entry = Entry(name: string, size: nat)

  datatype SliceMeta = SliceMeta(name: string, no: nat, size: int)

  // ----- the writer

  function EntryLine(e: Entry): (line: string)
  {
    "slice:" + e.name + "," + "size:" + Dec(e.size)
  }

  function EntryText(entries: seq<Entry>): (text: string)
  {
    if entries == [] then "" else EntryText(entries[..|entries| - 1]) + EntryLine(entries[|entries| - 1]) + "\n"
  }

  function MetaText(version: string, entries: seq<Entry>): (text: string)
  {
    "version:" + version + "\n" + "\n" + EntryText(entries)
  }

  /** The generator's name for slice `i` of `count`. */
  function SliceName(count: nat, i: nat): (name: string)
    requires i < count
  {
    "model_slice." + Numeral(count, i)
  }

  /** `i` padded with zeros to the width of `count`. */
  function Numeral(count: nat, i: nat): (s: string)
    requires i < count
    ensures AllDigits(s) && |s| == |Dec(count)|
  {
    DecLength(i, count);
    Zeros(|Dec(count)| - |Dec(i)|) + Dec(i)
  }

  function GeneratedEntries(count: nat, size: nat, n: nat): (entries: seq<Entry>)
    requires n <= count
  {
    seq(n, i requires 0 <= i < n => Entry(SliceName(count, i), size))
  }

  lemma OneMoreEntry(version: string, count: nat, size: nat, i: nat)
    requires i < count
    ensures MetaText(version, GeneratedEntries(count, size, i + 1)) ==
            MetaText(version, GeneratedEntries(count, size, i)) + (EntryLine(Entry(SliceName(count, i), size)) + "\n")
  {
    var entries := GeneratedEntries(count, size, i + 1);
    assert entries[..i] == GeneratedEntries(count, size, i);
  }

  /** The generator's loop over the slices of one version. */
  method WriteMeta(version: string, count: nat, size: nat) returns (meta: string)
    ensures meta == MetaText(version, GeneratedEntries(count, size, count))
  {
    meta := "version:" + version + "\n" + "\n";
    var i := 0;
    assert meta == MetaText(version, GeneratedEntries(count, size, 0));
    while i < count
      invariant 0 <= i <= count
      invariant meta == MetaText(version, GeneratedEntries(count, size, i))
    {
      DecLength(i, count);
      var name := "model_slice." + (Zeros(|Dec(count)| - |Dec(i)|) + Dec(i));
      OneMoreEntry(version, count, size, i);
      meta := meta + ("slice:" + name + "," + "size:" + Dec(size) + "\n");
      i := i + 1;
    }
  }

  /** All names have one length, and string order is slice order, so no two slices share a name. */
  lemma NamesInOrder(count: nat, i: nat, j: nat)
    requires i < j < count
    ensures |SliceName(count, i)| == |SliceName(count, j)|
    ensures LexLess(SliceName(count, i), SliceName(count, j))
    ensures SliceName(count, i) != SliceName(count, j)
  {
    NumeralsInOrder(count, i, j);
    LexPrefix("model_slice.", Numeral(count, i), Numeral(count, j));
    PrefixDiffers("model_slice.", Numeral(count, i), Numeral(count, j));
  }

  lemma NumeralsInOrder(count: nat, i: nat, j: nat)
    requires i < j < count
    ensures LexLess(Numeral(count, i), Numeral(count, j)) && Numeral(count, i) != Numeral(count, j)
  {
    NumeralValue(count, i);
    NumeralValue(count, j);
    LexIsNumeric(Numeral(count, i), Numeral(count, j));
  }

  lemma NumeralValue(count: nat, i: nat)
    requires i < count
    ensures Value(Numeral(count, i)) == i
  {
    DecLength(i, count);
    ValuePadded(|Dec(count)| - |Dec(i)|, Dec(i));
    ValueOfDec(i);
  }

  lemma PrefixDiffers(p: string, a: string, b: string)
    requires a != b
    ensures p + a != p + b
  {
    assert (p + a)[|p|..] == a && (p + b)[|p|..] == b;
  }

  // ----- the reader

  predicate LineText(s: string)
  {
    '\n' !in s
  }

  lemma FindNone(s: string, c: char)
    ensures Find(s, c) == |s| <==> c !in s
  {
    if Find(s, c) == |s| {
      assert s[..|s|] == s;
    } else {
      assert s[Find(s, c)] in s;
    }
  }

  /** The lines `std::getline` yields: no empty line after a final newline. */
  function Lines(text: string): (lines: seq<string>)
    decreases |text|
  {
    if text == [] then []
    else
      var i := Find(text, '\n');
      if i == |text| then [text] else [text[..i]] + Lines(text[i + 1..])
  }

  predicate IsSliceLine(line: string)
  {
    |line| >= 5 && line[..5] == "slice"
  }

  /**
   Name and size of a slice line; None where the code throws. Without a comma the position is -1: the
   name is all the rest and the size is read from column 5.
   */
  function ParseSlice(line: string): (r: Option<Entry'>)
    requires IsSliceLine(line)
  {
    var comma := Find(line, ',');
    if |line| < 6 then None
    else if comma == |line| then
      match Stoi(line[5..])
      case None => None
      case Some(v) => Some(Entry'(line[6..], v))
    else if |line| < comma + 6 then None
    else
      match Stoi(line[comma + 6..])
      case None => None
      case Some(v) => Some(Entry'(if comma < 6 then line[6..] else line[6..comma], v))
  }

  datatype Entry' = Entry'(name: string, size: int)

  /** The slices found in the lines, numbered from zero; None once a line makes the code throw. */
  function ParseLines(lines: seq<string>): (r: Option<seq<SliceMeta>>)
  {
    if lines == [] then Some([])
    else
      var n := |lines| - 1;
      match ParseLines(lines[..n])
      case None => None
      case Some(slices) => ParseLine(slices, lines[n])
  }

  function ParseLine(slices: seq<SliceMeta>, line: string): (r: Option<seq<SliceMeta>>)
  {
    if !IsSliceLine(line) then Some(slices)
    else
      match ParseSlice(line)
      case None => None
      case Some(e) => Some(slices + [SliceMeta(e.name, |slices|, e.size)])
  }

  /** The file read in pieces of up to 256 bytes, however short each read falls, each appended as a C string. */
  method ReadAll(file: string) returns (text: string)
    requires '\0' !in file
    ensures text == file
  {
    text := "";
    var at := 0;
    while at < |file|
      invariant 0 <= at <= |file| && text == file[..at]
    {
      var n: nat :| 0 < n <= 256 && at + n <= |file|;
      var piece := file[at..at + n];
      assert forall c :: c in piece ==> c in file;
      FindNone(piece, '\0');
      var end := Find(piece, '\0');
      text := text + piece[..end];
      at := at + n;
    }
  }

  /** The slices found in what is left of the text, after those already `found`. */
  function ParseFrom(found: seq<SliceMeta>, rest: string): (r: Option<seq<SliceMeta>>)
    decreases |rest|
  {
    if rest == [] then Some(found)
    else
      match ParseLine(found, rest[..Find(rest, '\n')])
      case None => None
      case Some(next) => ParseFrom(next, AfterLine(rest))
  }

  /** The size of the last slice found. */
  function LastSize(slices: seq<SliceMeta>): (size: int)
  {
    if slices == [] then 0 else slices[|slices| - 1].size
  }

  lemma LastSizeNext(slices: seq<SliceMeta>, slice: SliceMeta)
    ensures LastSize(slices + [slice]) == slice.size && |slices + [slice]| == |slices| + 1
  {
  }

  /** The loop over the lines: numbers and collects the slices. */
  method CollectSlices(text: string) returns (slices: Option<seq<SliceMeta>>, sliceNum: nat, sliceSize: int)
    ensures slices == ParseFrom([], text)
    ensures slices.Some? ==> sliceNum == |slices.value|
    ensures slices.Some? ==> sliceSize == LastSize(slices.value)
  {
    var rest := text;
    var found: seq<SliceMeta> := [];
    sliceNum, sliceSize := 0, 0;
    while rest != []
      invariant ParseFrom(found, rest) == ParseFrom([], text) && sliceNum == |found|
      invariant sliceSize == LastSize(found)
      decreases |rest|
    {
      var line := rest[..Find(rest, '\n')];
      if IsSliceLine(line) {
        var e := ParseSlice(line);
        if e.None? {
          return None, sliceNum, sliceSize;
        }
        LastSizeNext(found, SliceMeta(e.value.name, sliceNum, e.value.size));
        found := found + [SliceMeta(e.value.name, sliceNum, e.value.size)];
        sliceNum := sliceNum + 1;
        sliceSize := e.value.size;
      }
      rest := AfterLine(rest);
    }
    slices := Some(found);
  }

  /** Read, then parsed line by line. */
  method LoadModelMeta(file: string) returns (slices: Option<seq<SliceMeta>>, sliceNum: nat, sliceSize: int)
    requires '\0' !in file
    ensures slices == ParseLines(Lines(file))
    ensures slices.Some? ==> sliceNum == |slices.value|
    ensures slices.Some? ==> sliceSize == LastSize(slices.value)
  {
    var text := ReadAll(file);
    slices, sliceNum, sliceSize := CollectSlices(text);
    ParseFromStart(file);
  }

  lemma ParseFromStart(text: string)
    ensures ParseFrom([], text) == ParseLines(Lines(text))
  {
    var done: seq<string> := [];
    ParseFromIs(done, [], text);
    assert done + Lines(text) == Lines(text);
  }

  /** Parsing on from a place in the text is parsing all its lines. */
  lemma {:induction false} ParseFromIs(done: seq<string>, found: seq<SliceMeta>, rest: string)
    requires ParseLines(done) == Some(found)
    ensures ParseFrom(found, rest) == ParseLines(done + Lines(rest))
    decreases |rest|
  {
    if rest == [] {
      assert done + [] == done;
    } else {
      var line, left := rest[..Find(rest, '\n')], Lines(AfterLine(rest));
      FirstLine(rest);
      MoveLines(done, [line], left);
      ParseSnoc(done, line);
      if ParseLine(found, line).None? {
        StopsThere(done + [line], left);
      } else {
        ParseFromIs(done + [line], ParseLine(found, line).value, AfterLine(rest));
      }
    }
  }

  /** What `getline` leaves. */
  function AfterLine(text: string): (rest: string)
    requires text != []
    ensures |rest| < |text|
  {
    var i := Find(text, '\n');
    if i == |text| then [] else text[i + 1..]
  }

  lemma FirstLine(text: string)
    requires text != []
    ensures Lines(text) == [text[..Find(text, '\n')]] + Lines(AfterLine(text))
  {
    if Find(text, '\n') == |text| {
      assert text[..|text|] == text;
    }
  }

  lemma ParseSnoc(lines: seq<string>, line: string)
    requires ParseLines(lines).Some?
    ensures ParseLines(lines + [line]) == ParseLine(ParseLines(lines).value, line)
  {
    assert (lines + [line])[..|lines|] == lines;
  }

  /** A throw ends the parse whatever follows. */
  lemma {:induction false} StopsThere(lines: seq<string>, more: seq<string>)
    requires ParseLines(lines).None?
    ensures ParseLines(lines + more).None?
  {
    if more == [] {
      assert lines + more == lines;
    } else {
      var n := |more| - 1;
      StopsThere(lines, more[..n]);
      assert (lines + more)[..|lines + more| - 1] == lines + more[..n];
    }
  }

  // ----- round trip

  predicate Printable(e: Entry)
  {
    ',' !in e.name && '\n' !in e.name
  }

  lemma LinesSplit(a: string, b: string)
    requires LineText(a)
    ensures Lines(a + "\n" + b) == [a] + Lines(b)
  {
    var t := a + "\n" + b;
    FindAfter(a, '\n', b);
    assert t[..|a|] == a && t[|a| + 1..] == b;
  }

  function EntryLines(entries: seq<Entry>): (lines: seq<string>)
  {
    if entries == [] then [] else EntryLines(entries[..|entries| - 1]) + [EntryLine(entries[|entries| - 1])]
  }

  lemma {:induction false} LinesOfEntries(entries: seq<Entry>, b: string)
    requires forall i :: 0 <= i < |entries| ==> Printable(entries[i])
    ensures Lines(EntryText(entries) + b) == EntryLines(entries) + Lines(b)
  {
    if entries == [] {
      assert EntryText(entries) + b == b;
    } else {
      var m := |entries| - 1;
      LinesOfEntries(entries[..m], EntryLine(entries[m]) + "\n" + b);
      LinesOneMore(entries, b);
    }
  }

  lemma LinesOneMore(entries: seq<Entry>, b: string)
    requires entries != [] && Printable(entries[|entries| - 1])
    requires var front, line := entries[..|entries| - 1], EntryLine(entries[|entries| - 1]);
             Lines(EntryText(front) + (line + "\n" + b)) == EntryLines(front) + Lines(line + "\n" + b)
    ensures Lines(EntryText(entries) + b) == EntryLines(entries) + Lines(b)
  {
    var m := |entries| - 1;
    var front, line := entries[..m], EntryLine(entries[m]);
    EntryIsLine(entries[m]);
    LinesSplit(line, b);
    MoveText(EntryText(front), line, "\n", b);
    MoveLines(EntryLines(front), [line], Lines(b));
  }

  lemma MoveText(x: string, y: string, z: string, b: string)
    ensures x + y + z + b == x + (y + z + b)
  {
  }

  lemma MoveLines(x: seq<string>, y: seq<string>, z: seq<string>)
    ensures x + y + z == x + (y + z)
  {
  }

  /** The column arithmetic of a slice line. */
  lemma EntryColumns(e: Entry)
    requires ',' !in e.name
    ensures var line, head := EntryLine(e), "slice:" + e.name;
            && Find(line, ',') == |head| && |line| >= |head| + 6
            && line[|head| + 6..] == Dec(e.size) && line[6..|head|] == e.name && line[..5] == "slice"
  {
    var line, head, tail := EntryLine(e), "slice:" + e.name, "size:" + Dec(e.size);
    assert line == head + [','] + tail;
    assert ',' !in "slice:";
    FindAfter(head, ',', tail);
    assert line[|head| + 1..] == tail;
    assert line[|head| + 6..] == tail[5..] == Dec(e.size);
  }

  /** One line of the file gives back its name and size. */
  lemma ParseEntry(e: Entry)
    requires Printable(e)
    ensures IsSliceLine(EntryLine(e))
    ensures ParseSlice(EntryLine(e)) == (if e.size <= INT_MAX then Some(Entry'(e.name, e.size)) else None)
  {
    EntryColumns(e);
    StoiOfDec(e.size);
  }

  lemma EntryIsLine(e: Entry)
    requires Printable(e)
    ensures LineText(EntryLine(e))
  {
    assert AllDigits(Dec(e.size));
    assert '\n' !in Dec(e.size);
    assert '\n' !in "slice:" && '\n' !in "," && '\n' !in "size:";
  }

  function Expected(entries: seq<Entry>): (slices: seq<SliceMeta>)
  {
    seq(|entries|, i requires 0 <= i < |entries| => SliceMeta(entries[i].name, i, entries[i].size))
  }

  predicate AllFit(entries: seq<Entry>)
  {
    forall i :: 0 <= i < |entries| ==> entries[i].size <= INT_MAX
  }

  lemma FitSnoc(entries: seq<Entry>)
    requires entries != []
    ensures AllFit(entries) <==> AllFit(entries[..|entries| - 1]) && entries[|entries| - 1].size <= INT_MAX
  {
    if AllFit(entries[..|entries| - 1]) {
      assert forall i :: 0 <= i < |entries| - 1 ==> entries[i] == entries[..|entries| - 1][i];
    }
  }

  lemma ExpectedSnoc(entries: seq<Entry>)
    requires entries != []
    ensures var m := |entries| - 1;
            Expected(entries) == Expected(entries[..m]) + [SliceMeta(entries[m].name, m, entries[m].size)]
  {
  }

  /** The two header lines name no slice. */
  lemma ParseHeader(first: string)
    requires first != [] && first[0] != 's'
    ensures ParseLines([first, ""]) == Some([])
  {
    var lines := [first, ""];
    assert "slice"[0] == 's';
    assert !IsSliceLine(lines[0]) && !IsSliceLine(lines[1]);
    assert lines[..1][..0] == [];
    assert ParseLines(lines[..1]) == ParseLine([], lines[0]);
  }

  lemma {:induction false} ParseEntries(header: seq<string>, entries: seq<Entry>)
    requires ParseLines(header) == Some([])
    requires forall i :: 0 <= i < |entries| ==> Printable(entries[i])
    ensures ParseLines(header + EntryLines(entries)) == (if AllFit(entries) then Some(Expected(entries)) else None)
  {
    if entries == [] {
      assert header + EntryLines(entries) == header && Expected(entries) == [];
    } else {
      var m := |entries| - 1;
      var front := header + EntryLines(entries[..m]);
      var line := EntryLine(entries[m]);
      ParseEntries(header, entries[..m]);
      ParseEntry(entries[m]);
      MoveLines(header, EntryLines(entries[..m]), [line]);
      FitSnoc(entries);
      if AllFit(entries[..m]) {
        ParseSnoc(front, line);
        ExpectedSnoc(entries);
      } else {
        StopsThere(front, [line]);
      }
    }
  }

  lemma MetaHasLines(first: string, entries: seq<Entry>)
    requires LineText(first) && forall i :: 0 <= i < |entries| ==> Printable(entries[i])
    ensures Lines(first + "\n" + "\n" + EntryText(entries)) == [first, ""] + EntryLines(entries)
  {
    HeaderLines(first, EntryText(entries));
    BodyLines(entries);
    Associate(first + "\n", "\n", EntryText(entries));
  }

  lemma HeaderLines(first: string, body: string)
    requires LineText(first)
    ensures Lines(first + "\n" + ("\n" + body)) == [first, ""] + Lines(body)
  {
    LinesSplit(first, "\n" + body);
    EmptyLine(body);
    TwoLines(first, Lines(body));
  }

  lemma TwoLines(first: string, rest: seq<string>)
    ensures [first] + ([""] + rest) == [first, ""] + rest
  {
  }

  lemma Associate(x: string, y: string, z: string)
    ensures x + y + z == x + (y + z)
  {
  }

  lemma EmptyLine(body: string)
    ensures Lines("\n" + body) == [""] + Lines(body)
  {
    assert "" + "\n" + body == "\n" + body;
    LinesSplit("", body);
  }

  lemma BodyLines(entries: seq<Entry>)
    requires forall i :: 0 <= i < |entries| ==> Printable(entries[i])
    ensures Lines(EntryText(entries)) == EntryLines(entries)
  {
    LinesOfEntries(entries, "");
    assert EntryText(entries) + "" == EntryText(entries);
    assert EntryLines(entries) + [] == EntryLines(entries);
  }

  /**
   What is written is what is read, same names and sizes in order and numbered from zero, exactly when
   every size fits an `int`; otherwise reading throws.
   */
  lemma MetaRoundTrip(version: string, entries: seq<Entry>)
    requires LineText(version) && forall i :: 0 <= i < |entries| ==> Printable(entries[i])
    ensures ParseLines(Lines(MetaText(version, entries))) == Some(Expected(entries)) <==> AllFit(entries)
    ensures !AllFit(entries) ==> ParseLines(Lines(MetaText(version, entries))) == None
  {
    var first := "version:" + version;
    assert LineText(first) by {
      assert '\n' !in "version:";
    }
    MetaHasLines(first, entries);
    ParseHeader(first);
    ParseEntries([first, ""], entries);
  }

  lemma GeneratedPrintable(count: nat, i: nat)
    requires i < count
    ensures ',' !in SliceName(count, i) && '\n' !in SliceName(count, i)
  {
    assert AllDigits(Numeral(count, i));
    assert ',' !in "model_slice." && '\n' !in "model_slice.";
  }

  /** So a generated file with `count` slices of an `int`-sized length reads back with `count` slices of that length. */
  lemma GeneratedReadsBack(version: string, count: nat, size: nat)
    requires LineText(version) && size <= INT_MAX
    ensures var slices := ParseLines(Lines(MetaText(version, GeneratedEntries(count, size, count))));
            && slices.Some? && |slices.value| == count
            && forall i :: 0 <= i < count ==> slices.value[i] == SliceMeta(SliceName(count, i), i, size)
  {
    var entries := GeneratedEntries(count, size, count);
    forall i | 0 <= i < |entries|
      ensures Printable(entries[i])
    {
      GeneratedPrintable(count, i);
    }
    MetaRoundTrip(version, entries);
    assert AllFit(entries);
  }
}
