/** The checksum manifest of an evidence bundle (cli/src/main.rs): its printer and its verifier. */
module Checksums {
  import opened Wrappers
  import opened Text

  /** What the verifier meets where a file should be. `digest` is the file's SHA-256 in hexadecimal. */
  datatype File = NoFile | Unreadable | Readable(digest: string)

  type Folder = string -> File

  datatype Status = Pass | Mismatch | Missing | CannotRead

  datatype Entry = Entry(file: string, expected: string, actual: Option<string>, status: Status)

  /** `line` counts from 1. */
  datatype ParseError = NotAnEntry(line: nat) | InvalidDigest(line: nat) | MissingFilename(line: nat) | NoEntries

  // ---- one line ----

  predicate IsAsciiWhitespace(c: char) {
    c == ' ' || c == '\t' || c == '\n' || c == '\U{000C}' || c == '\r'
  }

  function FirstBlank(line: string): (r: Option<nat>)
    ensures r.Some? ==> r.value < |line| && IsAsciiWhitespace(line[r.value])
    ensures r.Some? ==> forall i :: 0 <= i < r.value ==> !IsAsciiWhitespace(line[i])
    ensures r.None? ==> forall i :: 0 <= i < |line| ==> !IsAsciiWhitespace(line[i])
  {
    if line == "" then None
    else if IsAsciiWhitespace(line[0]) then Some(0)
    else
      match FirstBlank(line[1..])
      case Some(i) => Some(i + 1)
      case None => None
  }

  function ParseLine(line: string): Option<(string, string)> {
    match FirstBlank(line)
    case None => None
    case Some(i) => Some((line[..i], TrimStart(line[i..])))
  }

  predicate IsHexDigit(c: char) {
    '0' <= c <= '9' || 'a' <= c <= 'f' || 'A' <= c <= 'F'
  }

  predicate IsDigest(s: string) {
    |s| == 64 && forall i :: 0 <= i < |s| ==> IsHexDigit(s[i])
  }

  /** Neither blank nor a comment. */
  predicate IsSignificant(line: string) {
    Trim(line) != "" && Trim(line)[0] != '#'
  }

  function Checked(folder: Folder, file: string, expected: string): Entry {
    match folder(file)
    case NoFile => Entry(file, Lower(expected), None, Missing)
    case Unreadable => Entry(file, Lower(expected), None, CannotRead)
    case Readable(digest) =>
      Entry(file, Lower(expected), Some(digest), if Lower(digest) == Lower(expected) then Pass else Mismatch)
  }

  function CheckLine(folder: Folder, line: string, number: nat): Result<Entry, ParseError> {
    match ParseLine(Trim(line))
    case None => Failure(NotAnEntry(number))
    case Some((expected, file)) =>
      if !IsDigest(expected) then Failure(InvalidDigest(number))
      else if file == "" then Failure(MissingFilename(number))
      else Success(Checked(folder, file, expected))
  }

  // ---- the manifest ----

  function EntriesOf(folder: Folder, lines: seq<string>): seq<Entry> {
    if lines == [] then []
    else
      var n := |lines| - 1;
      var checked := CheckLine(folder, lines[n], n + 1);
      EntriesOf(folder, lines[..n]) + if IsSignificant(lines[n]) && checked.Success? then [checked.value] else []
  }

  function ErrorsOf(folder: Folder, lines: seq<string>): seq<ParseError> {
    if lines == [] then []
    else
      var n := |lines| - 1;
      var checked := CheckLine(folder, lines[n], n + 1);
      ErrorsOf(folder, lines[..n]) + if IsSignificant(lines[n]) && checked.Failure? then [checked.error] else []
  }

  method VerifyEntries(folder: Folder, text: string) returns (entries: seq<Entry>, errors: seq<ParseError>)
    ensures entries == EntriesOf(folder, Lines(text)) && errors == ErrorsOf(folder, Lines(text))
  {
    hide Lines, ParseLine, Checked, Lower, IsDigest;
    var lines := Lines(text);
    entries, errors := [], [];
    for idx := 0 to |lines|
      invariant entries == EntriesOf(folder, lines[..idx]) && errors == ErrorsOf(folder, lines[..idx])
    {
      assert lines[..idx + 1][..idx] == lines[..idx];
      var trimmed := Trim(lines[idx]);
      if trimmed == "" || trimmed[0] == '#' {
        continue;
      }
      var parsed := ParseLine(trimmed);
      if parsed.None? {
        errors := errors + [NotAnEntry(idx + 1)];
        continue;
      }
      var (expected, file) := parsed.value;
      if !IsDigest(expected) {
        errors := errors + [InvalidDigest(idx + 1)];
        continue;
      }
      if file == "" {
        errors := errors + [MissingFilename(idx + 1)];
        continue;
      }
      entries := entries + [Checked(folder, file, expected)];
    }
    assert lines[..|lines|] == lines;
  }

  function PassCount(entries: seq<Entry>): nat {
    if entries == [] then 0
    else PassCount(entries[..|entries| - 1]) + if entries[|entries| - 1].status == Pass then 1 else 0
  }

  datatype BundleReport = BundleReport(entries: seq<Entry>, errors: seq<ParseError>, passed: nat, failed: nat)

  /** `verify_evidence_bundle`, once the manifest has been read. */
  method VerifyBundle(folder: Folder, manifest: string) returns (r: BundleReport)
    ensures var entries, errors := EntriesOf(folder, Lines(manifest)), ErrorsOf(folder, Lines(manifest));
            && r.entries == entries && r.errors == (if entries == [] && errors == [] then [NoEntries] else errors)
            && r.passed == PassCount(entries) && r.passed + r.failed == |entries| + |r.errors|
    ensures r.failed == 0 <==> AllLinesPass(folder, Lines(manifest))
  {
    hide EntriesOf, ErrorsOf, Lines, AllLinesPass;
    var entries, errors := VerifyEntries(folder, manifest);
    AllPassExactly(folder, Lines(manifest));
    if entries == [] && errors == [] {
      errors := [NoEntries];
    }
    var passed := 0;
    var failed := 0;
    for i := 0 to |entries|
      invariant passed == PassCount(entries[..i]) && passed + failed == i
      invariant failed == 0 <==> AllPass(entries[..i])
    {
      assert entries[..i + 1][..i] == entries[..i];
      assert entries[..i + 1] == entries[..i] + [entries[i]];
      AllPassSnoc(entries[..i], entries[i]);
      if entries[i].status == Pass {
        passed := passed + 1;
      } else {
        failed := failed + 1;
      }
    }
    assert entries[..|entries|] == entries;
    failed := failed + |errors|;
    r := BundleReport(entries, errors, passed, failed);
  }

  // ---- what a verification says ----

  /** At least one significant line, and each an entry whose file is there with the digest listed. */
  ghost predicate AllLinesPass(folder: Folder, lines: seq<string>) {
    HasSignificant(lines) && NoLineFails(folder, lines)
  }

  ghost predicate HasSignificant(lines: seq<string>) {
    exists i :: 0 <= i < |lines| && IsSignificant(lines[i])
  }

  ghost predicate NoLineFails(folder: Folder, lines: seq<string>) {
    forall i :: 0 <= i < |lines| && IsSignificant(lines[i]) ==> LinePasses(folder, lines[i])
  }

  ghost predicate LinePasses(folder: Folder, line: string) {
    exists expected, file ::
      && ParseLine(Trim(line)) == Some((expected, file)) && IsDigest(expected) && file != ""
      && folder(file).Readable? && Lower(folder(file).digest) == Lower(expected)
  }

  lemma PassesExactly(folder: Folder, line: string, number: nat)
    ensures LinePasses(folder, line) <==> CheckLine(folder, line, number).Success? && CheckLine(folder, line, number).value.status == Pass
  {
    hide Lower, IsDigest, ParseLine, Trim;
    if CheckLine(folder, line, number).Success? && CheckLine(folder, line, number).value.status == Pass {
      var (expected, file) := ParseLine(Trim(line)).value;
      assert ParseLine(Trim(line)) == Some((expected, file));
    }
  }

  ghost predicate AllPass(entries: seq<Entry>) {
    forall j :: 0 <= j < |entries| ==> entries[j].status == Pass
  }

  lemma AllPassSnoc(entries: seq<Entry>, entry: Entry)
    ensures AllPass(entries + [entry]) <==> AllPass(entries) && entry.status == Pass
  {
    var all := entries + [entry];
    assert forall j :: 0 <= j < |entries| ==> entries[j] == all[j];
    assert all[|entries|] == entry;
  }

  lemma NoLineFailsSnoc(folder: Folder, lines: seq<string>, line: string)
    ensures NoLineFails(folder, lines + [line])
      <==> NoLineFails(folder, lines) && (IsSignificant(line) ==> LinePasses(folder, line))
  {
    hide IsSignificant, LinePasses;
    var all := lines + [line];
    assert forall i :: 0 <= i < |lines| ==> all[i] == lines[i];
    assert all[|lines|] == line;
    if NoLineFails(folder, all) {
      forall i | 0 <= i < |lines| && IsSignificant(lines[i]) ensures LinePasses(folder, lines[i]) {
        assert IsSignificant(all[i]);
      }
    }
  }

  lemma NothingAdded<T>(items: seq<T>)
    ensures items + [] == items
  {
  }

  lemma {:induction false} NoLineFailsExactly(folder: Folder, lines: seq<string>)
    ensures NoLineFails(folder, lines) <==> ErrorsOf(folder, lines) == [] && AllPass(EntriesOf(folder, lines))
  {
    if lines != [] {
      var n := |lines| - 1;
      var front, line := lines[..n], lines[n];
      NoLineFailsExactly(folder, front);
      assert lines == front + [line];
      NoLineFailsSnoc(folder, front, line);
      PassesExactly(folder, line, n + 1);
      hide IsSignificant, CheckLine, LinePasses, NoLineFails, AllPass;
      if CheckLine(folder, line, n + 1).Success? {
        AllPassSnoc(EntriesOf(folder, front), CheckLine(folder, line, n + 1).value);
      }
      NothingAdded(EntriesOf(folder, front));
      NothingAdded(ErrorsOf(folder, front));
    }
  }

  lemma {:induction false} HasSignificantExactly(folder: Folder, lines: seq<string>)
    ensures HasSignificant(lines) <==> EntriesOf(folder, lines) != [] || ErrorsOf(folder, lines) != []
  {
    hide IsSignificant, CheckLine;
    if lines != [] {
      var n := |lines| - 1;
      HasSignificantExactly(folder, lines[..n]);
      assert HasSignificant(lines) <==> HasSignificant(lines[..n]) || IsSignificant(lines[n]);
    }
  }

  lemma AllPassExactly(folder: Folder, lines: seq<string>)
    ensures var entries, errors := EntriesOf(folder, lines), ErrorsOf(folder, lines);
            AllLinesPass(folder, lines) <==> entries != [] && errors == [] && AllPass(entries)
  {
    hide HasSignificant, NoLineFails;
    HasSignificantExactly(folder, lines);
    NoLineFailsExactly(folder, lines);
  }

  function SignificantLines(lines: seq<string>): nat {
    if lines == [] then 0
    else SignificantLines(lines[..|lines| - 1]) + if IsSignificant(lines[|lines| - 1]) then 1 else 0
  }

  /** Of an arbitrary text every significant line is accounted for once. */
  lemma {:induction false} EveryLineIsAccountedFor(folder: Folder, lines: seq<string>)
    ensures |EntriesOf(folder, lines)| + |ErrorsOf(folder, lines)| == SignificantLines(lines)
  {
    hide IsSignificant, CheckLine;
    if lines != [] {
      EveryLineIsAccountedFor(folder, lines[..|lines| - 1]);
    }
  }

  /** A trimmed line that splits has something after the split, so no line lacks just its file name. */
  lemma FilenameIsNeverMissing(folder: Folder, line: string, number: nat)
    ensures CheckLine(folder, line, number) != Failure(MissingFilename(number))
  {
    var trimmed := Trim(line);
    hide IsDigest, Checked, Trim, IsWhitespace;
    match FirstBlank(trimmed)
    case None =>
    case Some(i) =>
      var rest := trimmed[i..];
      TrimStartOfBlank(rest);
      assert rest[|rest| - 1] == trimmed[|trimmed| - 1];
      assert !IsBlank(rest);
  }

  // ---- printing and verifying ----

  datatype Listed = Listed(digest: string, name: string)

  function Printed(items: seq<Listed>): string {
    if items == [] then ""
    else items[0].digest + "  " + items[0].name + "\n" + Printed(items[1..])
  }

  /** A name that survives on a line of its own. */
  predicate IsName(name: string) {
    name != "" && '\n' !in name && IsTrimmed(name)
  }

  predicate IsListed(item: Listed) {
    IsDigest(item.digest) && IsName(item.name)
  }

  function PrintedLine(item: Listed): string {
    item.digest + "  " + item.name
  }

  lemma HexIsPlain(c: char)
    requires IsHexDigit(c)
    ensures !IsWhitespace(c) && !IsAsciiWhitespace(c) && c != '#' && c != '\n'
  {
  }

  lemma PrintedLineShape(item: Listed)
    requires IsListed(item)
    ensures var line := PrintedLine(item);
            '\n' !in line && WithoutReturn(line) == line && Trim(line) == line && IsSignificant(line)
  {
    var line := PrintedLine(item);
    forall i | 0 <= i < 64 ensures !IsWhitespace(item.digest[i]) && item.digest[i] != '\n' && item.digest[i] != '#' {
      HexIsPlain(item.digest[i]);
    }
    assert IsWhitespace('\r');
    hide IsWhitespace, IsHexDigit, Trim;
    assert line[0] == item.digest[0];
    assert line[|line| - 1] == item.name[|item.name| - 1];
    TrimOfTrimmed(line);
  }

  lemma PrintedLineParses(item: Listed)
    requires IsListed(item)
    ensures ParseLine(PrintedLine(item)) == Some((item.digest, item.name))
  {
    var line := PrintedLine(item);
    forall i | 0 <= i < 64 ensures !IsAsciiWhitespace(line[i]) {
      HexIsPlain(item.digest[i]);
    }
    assert line[64] == ' ';
    assert FirstBlank(line) == Some(64);
    assert line[..64] == item.digest;
    assert line[64..] == "  " + item.name;
    TwoBlanks(item.name);
  }

  lemma TwoBlanks(name: string)
    requires IsName(name)
    ensures TrimStart("  " + name) == name
  {
    hide IsWhitespace;
    assert IsBlank("  ") by {
      BlanksAreBlank();
    }
    TrimStartAfter("  ", name);
  }

  lemma BlanksAreBlank()
    ensures IsBlank("  ")
  {
  }

  lemma {:induction false} LinesOfPrinted(items: seq<Listed>)
    requires forall item | item in items :: IsListed(item)
    ensures Lines(Printed(items)) == seq(|items|, i requires 0 <= i < |items| => PrintedLine(items[i]))
  {
    hide IsListed, PrintedLine, Lines, WithoutReturn;
    if items == [] {
      NoLines();
    } else {
      PrintedLineShape(items[0]);
      assert Printed(items) == PrintedLine(items[0]) + "\n" + Printed(items[1..]) by {
        OneLine(items);
      }
      FirstLine(PrintedLine(items[0]), Printed(items[1..]));
      LinesOfPrinted(items[1..]);
    }
  }

  lemma NoLines()
    ensures Lines("") == []
  {
  }

  lemma OneLine(items: seq<Listed>)
    requires items != []
    ensures Printed(items) == PrintedLine(items[0]) + "\n" + Printed(items[1..])
  {
  }

  lemma {:induction false} EntriesOfPrinted(folder: Folder, items: seq<Listed>, lines: seq<string>)
    requires |lines| == |items| && forall i :: 0 <= i < |items| ==> IsListed(items[i]) && lines[i] == PrintedLine(items[i])
    ensures ErrorsOf(folder, lines) == []
    ensures EntriesOf(folder, lines)
         == seq(|items|, i requires 0 <= i < |items| => Checked(folder, items[i].name, items[i].digest))
  {
    hide IsDigest, PrintedLine, Checked, IsSignificant, Trim, ParseLine;
    if items != [] {
      var n := |items| - 1;
      EntriesOfPrinted(folder, items[..n], lines[..n]);
      PrintedLineShape(items[n]);
      PrintedLineParses(items[n]);
    }
  }

  /** Printing and verifying gives the items back in order, without errors; each passes just if its
      file can be read and has the digest. */
  lemma VerifierInvertsPrinter(folder: Folder, items: seq<Listed>)
    requires forall item | item in items :: IsListed(item)
    ensures ErrorsOf(folder, Lines(Printed(items))) == []
    ensures var entries := EntriesOf(folder, Lines(Printed(items)));
      |entries| == |items| && forall i :: 0 <= i < |items| ==>
        && entries[i].file == items[i].name && entries[i].expected == Lower(items[i].digest)
        && (entries[i].status == Pass <==>
              folder(items[i].name).Readable? && Lower(folder(items[i].name).digest) == Lower(items[i].digest))
        && (entries[i].status == Missing <==> folder(items[i].name).NoFile?)
  {
    hide IsListed, PrintedLine;
    LinesOfPrinted(items);
    EntriesOfPrinted(folder, items, Lines(Printed(items)));
  }

  // ---- the bundle the program writes ----

  const REPORT_FILE := "report.json"
  const RAW_FILE := "raw_observations.json"

  function BundleManifest(sha: string -> string, report: string, raw: string): string {
    Printed([Listed(sha(report), REPORT_FILE), Listed(sha(raw), RAW_FILE)])
  }

  /** A bundle folder with these two files. */
  function BundleFolder(sha: string -> string, report: string, raw: string): Folder {
    name => if name == REPORT_FILE then Readable(sha(report)) else if name == RAW_FILE then Readable(sha(raw)) else NoFile
  }

  /** A manifest fits the contents of a folder just if both have the same digests. */
  lemma BundleVerifiesExactly(sha: string -> string, report: string, raw: string, report': string, raw': string)
    requires forall s :: IsDigest(sha(s)) && Lower(sha(s)) == sha(s)
    ensures var lines, folder := Lines(BundleManifest(sha, report, raw)), BundleFolder(sha, report', raw');
            AllLinesPass(folder, lines) <==> sha(report) == sha(report') && sha(raw) == sha(raw')
  {
    var items := [Listed(sha(report), REPORT_FILE), Listed(sha(raw), RAW_FILE)];
    var folder := BundleFolder(sha, report', raw');
    BundleNames();
    assert IsListed(items[0]) && IsListed(items[1]);
    hide *;
    TwoEntries(folder, items[0], items[1]);
    BundleFiles(sha, report, raw, report', raw');
  }

  lemma BundleNames()
    ensures IsName(REPORT_FILE) && IsName(RAW_FILE) && REPORT_FILE != RAW_FILE
  {
  }

  lemma TwoEntries(folder: Folder, a: Listed, b: Listed)
    requires IsListed(a) && IsListed(b)
    ensures AllLinesPass(folder, Lines(Printed([a, b]))) <==> Holds(folder, a) && Holds(folder, b)
  {
    hide IsListed, Lines, Printed, Lower, AllLinesPass, EntriesOf, ErrorsOf;
    VerifierInvertsPrinter(folder, [a, b]);
    AllPassExactly(folder, Lines(Printed([a, b])));
    var entries := EntriesOf(folder, Lines(Printed([a, b])));
    assert AllPass(entries) <==> entries[0].status == Pass && entries[1].status == Pass;
  }

  predicate Holds(folder: Folder, item: Listed) {
    folder(item.name).Readable? && Lower(folder(item.name).digest) == Lower(item.digest)
  }

  lemma BundleFiles(sha: string -> string, report: string, raw: string, report': string, raw': string)
    requires forall s :: IsDigest(sha(s)) && Lower(sha(s)) == sha(s)
    ensures var folder := BundleFolder(sha, report', raw');
      && BundleManifest(sha, report, raw) == Printed([Listed(sha(report), REPORT_FILE), Listed(sha(raw), RAW_FILE)])
      && (Holds(folder, Listed(sha(report), REPORT_FILE)) <==> sha(report) == sha(report'))
      && (Holds(folder, Listed(sha(raw), RAW_FILE)) <==> sha(raw) == sha(raw'))
  {
    BundleNames();
    hide IsDigest, IsName, Lower, Printed;
  }

  // ---- what is read and what is passed over ----

  /** It says nothing, or its first visible character is a hash. */
  ghost predicate IsPassedOver(line: string) {
    IsBlank(line) || exists i: nat :: i < |line| && IsBlank(line[..i]) && line[i] == '#'
  }

  lemma PassedOverExactly(line: string)
    ensures IsPassedOver(line) <==> !IsSignificant(line)
  {
    HashIsVisible();
    hide Trim, IsWhitespace;
    var before, after := TrimParts(line);
    var n := |before|;
    if Trim(line) != "" {
      assert line[n] == Trim(line)[0] && line[..n] == before;
      if i: nat :| i < |line| && IsBlank(line[..i]) && line[i] == '#' {
        assert i == n;
      }
    }
  }

  lemma HashIsVisible()
    ensures !IsWhitespace('#')
  {
  }

  lemma {:induction false} PassedOverAddsNoEntry(folder: Folder, earlier: seq<string>, line: string, later: seq<string>)
    requires IsPassedOver(line)
    ensures EntriesOf(folder, earlier + [line] + later) == EntriesOf(folder, earlier + later)
    decreases |later|
  {
    PassedOverExactly(line);
    hide IsPassedOver, IsSignificant, CheckLine;
    if later == [] {
      assert (earlier + [line] + later)[..|earlier|] == earlier == earlier + later;
    } else {
      var n := |later| - 1;
      var with, without := earlier + [line] + later, earlier + later;
      assert with[..|with| - 1] == earlier + [line] + later[..n] && without[..|without| - 1] == earlier + later[..n];
      PassedOverAddsNoEntry(folder, earlier, line, later[..n]);
      NumberIsNoMatter(folder, later[n], |with|, |without|);
    }
  }

  /** Entries do not depend on where their line stands. */
  lemma NumberIsNoMatter(folder: Folder, line: string, a: nat, b: nat)
    ensures CheckLine(folder, line, a).Success? <==> CheckLine(folder, line, b).Success?
    ensures CheckLine(folder, line, a).Success? ==> CheckLine(folder, line, a).value == CheckLine(folder, line, b).value
  {
    hide Trim, ParseLine, IsDigest, Checked;
  }

  /** A blank line or a comment adds neither an entry nor an error, wherever it stands. */
  lemma CommentsAreNoMatter(folder: Folder, earlier: seq<string>, line: string, later: seq<string>)
    requires IsPassedOver(line)
    ensures EntriesOf(folder, earlier + [line] + later) == EntriesOf(folder, earlier + later)
    ensures |ErrorsOf(folder, earlier + [line] + later)| == |ErrorsOf(folder, earlier + later)|
    ensures ErrorsOf(folder, earlier + [line]) == ErrorsOf(folder, earlier)
  {
    PassedOverAddsNoEntry(folder, earlier, line, later);
    PassedOverExactly(line);
    EveryLineIsAccountedFor(folder, earlier + [line] + later);
    EveryLineIsAccountedFor(folder, earlier + later);
    SignificantWithout(earlier, line, later);
    assert (earlier + [line])[..|earlier|] == earlier;
    hide IsPassedOver, IsSignificant, EntriesOf;
  }

  lemma {:induction false} SignificantWithout(earlier: seq<string>, line: string, later: seq<string>)
    requires !IsSignificant(line)
    ensures SignificantLines(earlier + [line] + later) == SignificantLines(earlier + later)
    decreases |later|
  {
    hide IsSignificant;
    if later == [] {
      assert (earlier + [line] + later)[..|earlier|] == earlier == earlier + later;
    } else {
      var n := |later| - 1;
      var with, without := earlier + [line] + later, earlier + later;
      assert with[..|with| - 1] == earlier + [line] + later[..n] && without[..|without| - 1] == earlier + later[..n];
      SignificantWithout(earlier, line, later[..n]);
    }
  }

  /** Sixty-four hexadecimal digits, in either case. */
  lemma DigestsExactly(s: string)
    ensures IsDigest(s) <==> |s| == 64 && forall i :: 0 <= i < 64 ==> s[i] in "0123456789abcdefABCDEF"
    ensures IsDigest(s) <==> IsDigest(Lower(s))
  {
    forall c: char ensures IsHexDigit(c) <==> c in "0123456789abcdefABCDEF" {
      HexDigitsAre(c);
    }
    forall c: char ensures IsHexDigit(c) <==> IsHexDigit(LowerChar(c)) {
    }
    hide IsHexDigit, LowerChar;
  }

  lemma HexDigitsAre(c: char)
    ensures IsHexDigit(c) <==> c in "0123456789abcdefABCDEF"
  {
    var digits := "0123456789abcdefABCDEF";
    if '0' <= c <= '9' {
      assert digits[c as int - '0' as int] == c;
    } else if 'a' <= c <= 'f' {
      assert digits[c as int - 'a' as int + 10] == c;
    } else if 'A' <= c <= 'F' {
      assert digits[c as int - 'A' as int + 16] == c;
    }
  }

  /** Spelled in another case, a digest is accepted all the same and gives the same entry. */
  lemma DigestCaseIsNoMatter(folder: Folder, item: Listed, respelled: string, number: nat)
    requires IsListed(item) && Lower(respelled) == Lower(item.digest)
    ensures var line := PrintedLine(Listed(respelled, item.name));
      CheckLine(folder, line, number) == CheckLine(folder, PrintedLine(item), number) && CheckLine(folder, line, number).Success?
      && IsSignificant(line)
  {
    DigestsExactly(respelled);
    DigestsExactly(item.digest);
    hide IsDigest, Lower, IsName, ParseLine, Trim, PrintedLine, IsSignificant, Checked, CheckLine;
    var other := Listed(respelled, item.name);
    assert |respelled| == |item.digest|;
    PrintedLineChecks(folder, item, number);
    PrintedLineChecks(folder, other, number);
    SameChecked(folder, item.name, item.digest, respelled);
  }

  lemma PrintedLineChecks(folder: Folder, item: Listed, number: nat)
    requires IsListed(item)
    ensures CheckLine(folder, PrintedLine(item), number) == Success(Checked(folder, item.name, item.digest))
    ensures IsSignificant(PrintedLine(item))
  {
    PrintedLineShape(item);
    PrintedLineParses(item);
    hide IsDigest, Checked, ParseLine, Trim, PrintedLine, IsSignificant;
  }

  lemma SameChecked(folder: Folder, file: string, a: string, b: string)
    requires Lower(a) == Lower(b)
    ensures Checked(folder, file, a) == Checked(folder, file, b)
  {
    hide Lower;
  }
}
