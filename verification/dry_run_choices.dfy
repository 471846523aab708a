/** What the dry run takes from a task (inference_bridge/src/lib.rs): the tools, by the words it contains, the
    first word that looks like a path, and the first number before the word "lines". */
module DryRunChoices {
  import opened Wrappers
  import opened Text
  import opened InvestigationTemplates
  import opened DryRun

  // ---- the words of a task ----

  lemma {:induction false} WordEndOfTwo(a: string, b: string)
    requires b == "" || IsWhitespace(b[0])
    ensures WordEnd(a + b) == WordEnd(a)
  {
    hide IsWhitespace;
    if a == "" {
      assert a + b == b;
    } else if !IsWhitespace(a[0]) {
      WordEndOfTwo(a[1..], b);
      assert (a + b)[1..] == a[1..] + b;
    }
  }

  lemma WordEndIsIn(s: string)
    ensures WordEnd(s) <= |s| && forall i :: 0 <= i < WordEnd(s) ==> !IsWhitespace(s[i])
  {
    hide IsWhitespace;
  }

  /** A text breaks into words at white space. */
  lemma {:induction false} WordsOfTwo(a: string, b: string)
    requires b == "" || IsWhitespace(b[0])
    ensures Words(a + b) == Words(a) + Words(b)
    decreases |a|
  {
    hide IsWhitespace, IsBlank, TrimStart;
    TrimStartOfBlank(a);
    if IsBlank(a) {
      TrimStartAfter(a, b);
    } else {
      TrimStartGoesOn(a, b);
      TrimStartIs(a);
      var t := TrimStart(a);
      var n := WordEnd(t);
      WordEndOfTwo(t, b);
      assert (t + b)[..n] == t[..n] && (t + b)[n..] == t[n..] + b;
      WordsOfTwo(t[n..], b);
      hide WordEnd;
      assert Words(a + b) == [t[..n]] + Words(t[n..] + b);
    }
  }

  predicate IsWord(s: string) {
    s != "" && forall i :: 0 <= i < |s| ==> !IsWhitespace(s[i])
  }

  lemma {:induction false} WordEndOfWord(s: string)
    requires forall i :: 0 <= i < |s| ==> !IsWhitespace(s[i])
    ensures WordEnd(s) == |s|
  {
    hide IsWhitespace;
    if s != "" {
      WordEndOfWord(s[1..]);
    }
  }

  lemma OneWord(blank: string, word: string)
    requires IsWord(word) && IsBlank(blank)
    ensures Words(blank + word) == [word]
  {
    hide IsWhitespace, IsBlank;
    TrimStartAfter(blank, word);
    WordEndOfWord(word);
    assert TrimStart(word) == word;
    assert word[..|word|] == word && word[|word|..] == "";
    assert Words("") == [];
  }

  /** The last word of a text that ends in it. */
  lemma WordAfter(before: string, word: string)
    requires IsWord(word) && (before != "" ==> IsWhitespace(before[|before| - 1]))
    ensures Words(before + word) == Words(before) + [word]
  {
    hide IsWord, Words;
    if before == "" {
      assert before + word == "" + word;
      NoWords();
      OneWord("", word);
    } else {
      var n := |before| - 1;
      var front, gap := before[..n], before[n..];
      BlankOne(gap);
      hide IsWhitespace, IsBlank;
      assert before == front + gap && before + word == front + (gap + word);
      GapStarts(gap, word);
      WordsOfTwo(front, gap + word);
      WordsOfTwo(front, gap);
      OneWord(gap, word);
      BlankHasNoWords(gap);
    }
  }

  lemma GapStarts(gap: string, word: string)
    requires |gap| == 1 && IsBlank(gap)
    ensures IsWhitespace((gap + word)[0]) && IsWhitespace(gap[0])
  {
  }

  /** A word between white space, or at an end of the text, is one of its words, in its place. */
  lemma WordAmong(before: string, word: string, after: string)
    requires IsWord(word) && (before != "" ==> IsWhitespace(before[|before| - 1])) && (after != "" ==> IsWhitespace(after[0]))
    ensures Words(before + word + after) == Words(before) + [word] + Words(after)
  {
    hide IsWord, Words, IsWhitespace;
    WordsOfTwo(before + word, after);
    WordAfter(before, word);
  }

  lemma NoWords()
    ensures Words("") == [] && IsBlank("")
  {
  }

  lemma BlankOne(gap: string)
    requires |gap| == 1 && IsWhitespace(gap[0])
    ensures IsBlank(gap)
  {
  }

  lemma BlankHasNoWords(s: string)
    requires IsBlank(s)
    ensures Words(s) == []
  {
    hide IsBlank, IsWhitespace;
    TrimStartOfBlank(s);
  }

  // ---- a path ----

  lemma {:induction false} StrippedInner(open: string, inner: string, close: string, chars: string)
    requires (forall c | c in open :: c in chars) && (forall c | c in close :: c in chars)
    requires inner != "" && inner[0] !in chars && inner[|inner| - 1] !in chars
    ensures Stripped(open + inner + close, chars) == inner
    decreases |open| + |close|
  {
    var s := open + inner + close;
    if open != "" {
      StrippedInner(open[1..], inner, close, chars);
      assert s[0] == open[0] && s[1..] == open[1..] + inner + close;
    } else if close != "" {
      var n := |close| - 1;
      StrippedInner(open, inner, close[..n], chars);
      assert s[0] == inner[0] && s[|s| - 1] == close[n] && s[..|s| - 1] == open + inner + close[..n];
    } else {
      assert s == inner;
    }
  }

  /** It has a separator, or the ending of a file. */
  predicate IsPathLike(s: string) {
    || '/' in s || '\\' in s || ':' in s
    || EndsWith(s, ".exe") || EndsWith(s, ".dll") || EndsWith(s, ".log") || EndsWith(s, ".txt") || EndsWith(s, ".md")
    || EndsWith(s, ".json") || EndsWith(s, ".toml")
  }

  lemma PathsLookLikeIt(s: string)
    ensures LooksLikePath(s) <==> IsPathLike(s)
  {
    hide EndsWith;
    var endings := [".exe", ".dll", ".log", ".txt", ".md", ".json", ".toml"];
    assert endings[0] in endings && endings[1] in endings && endings[2] in endings && endings[3] in endings;
    assert endings[4] in endings && endings[5] in endings && endings[6] in endings;
  }

  lemma {:induction false} FirstPathAmong(before: seq<string>, word: string, after: seq<string>)
    requires FirstPath(before).None? && IsPathLike(Stripped(word, PUNCTUATION))
    ensures FirstPath(before + [word] + after) == Some(Stripped(word, PUNCTUATION))
  {
    var words := before + [word] + after;
    hide IsPathLike, LooksLikePath;
    PathsLookLikeIt(Stripped(word, PUNCTUATION));
    if before != [] {
      FirstPathAmong(before[1..], word, after);
      assert words[1..] == before[1..] + [word] + after;
    }
  }

  lemma {:induction false} NoPathExactly(words: seq<string>)
    ensures FirstPath(words).None? <==> forall w | w in words :: !IsPathLike(Stripped(w, PUNCTUATION))
  {
    hide IsPathLike, LooksLikePath, Stripped, PUNCTUATION;
    if words != [] {
      PathsLookLikeIt(Stripped(words[0], PUNCTUATION));
      NoPathExactly(words[1..]);
      assert words[0] in words;
      assert forall w :: w in words <==> w == words[0] || w in words[1..];
    }
  }

  /** The first word of a task that looks like a path, without the punctuation around it, is the path that
      `hash_binary` and `read_syslog` are called with. */
  lemma PathIsTaken(before: string, open: string, path: string, close: string, after: string, defaultLog: string)
    requires (before != "" ==> IsWhitespace(before[|before| - 1])) && (after != "" ==> IsWhitespace(after[0]))
    requires (forall c | c in open :: c in PUNCTUATION) && (forall c | c in close :: c in PUNCTUATION)
    requires IsWord(path) && path[0] !in PUNCTUATION && path[|path| - 1] !in PUNCTUATION && IsPathLike(path)
    requires GuessPath(before).None?
    ensures var task := before + (open + path + close) + after;
      && GuessPath(task) == Some(path)
      && ArgumentsFor("hash_binary", task, defaultLog) == [("path", Path(path))]
      && |ArgumentsFor("read_syslog", task, defaultLog)| == 2
      && ArgumentsFor("read_syslog", task, defaultLog)[0] == ("path", Path(path))
  {
    var word := open + path + close;
    StrippedInner(open, path, close, PUNCTUATION);
    PunctuationIsNoSpace(open);
    PunctuationIsNoSpace(close);
    assert IsWord(word);
    hide IsPathLike, IsWhitespace, IsWord, PUNCTUATION, Words, FirstLineCount, Stripped, ArgumentsFor;
    WordAmong(before, word, after);
    FirstPathAmong(Words(before), word, Words(after));
    PathArguments(before + word + after, defaultLog);
  }

  lemma PathArguments(task: string, defaultLog: string)
    ensures var path, read := GuessPath(task), ArgumentsFor("read_syslog", task, defaultLog);
      && ArgumentsFor("hash_binary", task, defaultLog) == [("path", Path(if path.Some? then path.value else "./Cargo.toml"))]
      && |read| == 2 && read[0] == ("path", Path(if path.Some? then path.value else defaultLog))
  {
    hide GuessPath, Words, FirstLineCount;
  }

  lemma PunctuationIsNoSpace(s: string)
    requires forall c | c in s :: c in PUNCTUATION
    ensures forall i :: 0 <= i < |s| ==> !IsWhitespace(s[i])
  {
    forall c | c in PUNCTUATION ensures !IsWhitespace(c) {
    }
    assert forall i :: 0 <= i < |s| ==> s[i] in s;
  }

  /** Without such a word the defaults are taken. */
  lemma NoPathIsTaken(task: string, defaultLog: string)
    ensures GuessPath(task).None? <==> forall w | w in Words(task) :: !IsPathLike(Stripped(w, PUNCTUATION))
    ensures GuessPath(task).None? ==>
      && ArgumentsFor("hash_binary", task, defaultLog) == [("path", Path("./Cargo.toml"))]
      && ArgumentsFor("read_syslog", task, defaultLog)[0] == ("path", Path(defaultLog))
  {
    hide IsPathLike, PUNCTUATION, Words, FirstLineCount, Stripped, ArgumentsFor;
    NoPathExactly(Words(task));
    PathArguments(task, defaultLog);
  }

  // ---- a number of lines ----

  predicate AreDigits(s: string) {
    forall c | c in s :: IsDigit(c)
  }

  lemma DigitsSnoc(front: string, last: char)
    requires AreDigits(front) && IsDigit(last)
    ensures AreDigits(front + [last]) && DigitsValue(front + [last]) == 10 * DigitsValue(front) + (last as int - '0' as int)
  {
    assert (front + [last])[..|front|] == front;
  }

  lemma {:induction false} DecimalIsRead(n: nat)
    ensures AreDigits(Decimal(n)) && Decimal(n) != "" && DigitsValue(Decimal(n)) == n
  {
    hide DigitsValue, AreDigits;
    var d := n % 10;
    var last := ('0' as int + d) as char;
    assert IsDigit(last) && last as int - '0' as int == d;
    if n >= 10 {
      DecimalIsRead(n / 10);
      DigitsSnoc(Decimal(n / 10), last);
    } else {
      NoDigits();
      DigitsSnoc("", last);
      assert "" + [last] == [last];
    }
  }

  lemma NoDigits()
    ensures AreDigits("") && DigitsValue("") == 0
  {
  }

  lemma CountIsRead(n: nat)
    requires n < 0x1_0000_0000_0000_0000
    ensures ParseCount(Decimal(n)) == Some(n)
    ensures IsWord(Decimal(n)) && Stripped(Decimal(n), PUNCTUATION + ".") == Decimal(n)
  {
    hide DigitsValue, Decimal;
    DecimalIsRead(n);
    var s := Decimal(n);
    assert s[0] in s && s[|s| - 1] in s;
    DigitsArePlain();
    assert "" + s + "" == s;
    hide Stripped, PUNCTUATION, IsDigit;
    StrippedInner("", s, "", PUNCTUATION + ".");
    assert forall i :: 0 <= i < |s| ==> s[i] in s;
  }

  lemma DigitsArePlain()
    ensures forall c :: IsDigit(c) ==> c !in PUNCTUATION + "." && c != '+' && !IsWhitespace(c)
  {
  }

  lemma FirstCountHere(n: nat, after: seq<string>)
    requires 1 <= n < 0x1_0000_0000_0000_0000
    ensures FirstLineCount([Decimal(n), "lines"] + after) == Some(if n < 5000 then n else 5000)
  {
    hide Decimal, ParseCount;
    CountIsRead(n);
    LinesIsRead();
    hide Stripped, PUNCTUATION, Lower;
    var words := [Decimal(n), "lines"] + after;
    assert words[0] == Decimal(n) && words[1] == "lines";
  }

  lemma {:induction false} FirstCountAmong(before: seq<string>, n: nat, after: seq<string>)
    requires FirstLineCount(before + [Decimal(n)]).None? && 1 <= n < 0x1_0000_0000_0000_0000
    ensures FirstLineCount(before + [Decimal(n), "lines"] + after) == Some(if n < 5000 then n else 5000)
  {
    hide Decimal, ParseCount, Stripped, PUNCTUATION, Lower;
    if before == [] {
      FirstCountHere(n, after);
      assert before + [Decimal(n), "lines"] + after == [Decimal(n), "lines"] + after;
    } else {
      var shorter, words := before + [Decimal(n)], before + [Decimal(n), "lines"] + after;
      assert shorter[1..] == before[1..] + [Decimal(n)];
      assert words[1..] == before[1..] + [Decimal(n), "lines"] + after;
      assert words[0] == shorter[0] && words[1] == shorter[1];
      FirstCountAmong(before[1..], n, after);
    }
  }

  lemma LinesIsPlain()
    ensures IsWord("lines") && 'l' !in PUNCTUATION + "." && 's' !in PUNCTUATION + "."
  {
  }

  lemma LinesIsRead()
    ensures "line" <= Lower(Stripped("lines", PUNCTUATION + ".")) && IsWord("lines")
  {
    LinesIsPlain();
    hide PUNCTUATION, IsWord, Stripped;
    assert "" + "lines" + "" == "lines";
    StrippedInner("", "lines", "", PUNCTUATION + ".");
    LowerLines();
    hide Lower;
  }

  lemma LowerLines()
    ensures "line" <= Lower("lines")
  {
    assert Lower("lines")[..4] == "line";
  }

  lemma CountAmongWords(before: string, n: nat, after: string)
    requires (before != "" ==> IsWhitespace(before[|before| - 1])) && (after != "" ==> IsWhitespace(after[0]))
    requires n < 0x1_0000_0000_0000_0000
    ensures Words(before + Decimal(n) + " " + "lines" + after) == Words(before) + [Decimal(n), "lines"] + Words(after)
  {
    hide Words, Decimal;
    CountIsRead(n);
    LinesIsRead();
    SpaceIsSpace();
    hide IsWhitespace, IsWord, IsBlank, Stripped, PUNCTUATION, Lower, ParseCount;
    WordAmong(before, Decimal(n), " ");
    BlankHasNoWords(" ");
    var front := before + Decimal(n) + " ";
    assert front[|front| - 1] == ' ';
    WordAmong(front, "lines", after);
    assert Words(front) == Words(before) + [Decimal(n)];
    Together(Words(before), Decimal(n), "lines", Words(after));
  }

  lemma Together(a: seq<string>, b: string, c: string, d: seq<string>)
    ensures a + [b] + [c] + d == a + [b, c] + d
  {
    assert [b] + [c] == [b, c];
  }

  /** The first number before the word "lines", up to 5000, is the number of lines that `read_syslog` is
      called with. */
  lemma LineCountIsTaken(before: string, n: nat, after: string, defaultLog: string)
    requires (before != "" ==> IsWhitespace(before[|before| - 1])) && (after != "" ==> IsWhitespace(after[0]))
    requires 1 <= n < 0x1_0000_0000_0000_0000 && FirstLineCount(Words(before) + [Decimal(n)]).None?
    ensures var args := ArgumentsFor("read_syslog", before + Decimal(n) + " " + "lines" + after, defaultLog);
      |args| == 2 && args[1] == ("max_lines", Count(if n < 5000 then n else 5000))
  {
    hide Words, FirstLineCount, Decimal, IsWhitespace, GuessPath;
    FirstCountAmong(Words(before), n, Words(after));
    CountAmongWords(before, n, after);
  }

  lemma SpaceIsSpace()
    ensures IsWhitespace(' ') && IsBlank(" ")
  {
  }

  // ---- the tools ----

  /** What a dry run can be about. */
  datatype Topic =
    | Capture | Files | Logs | Accounts | BaselineDrift | ProcessNetwork | SshKeys | Persistence | Network | Privileges

  function WordsOf(topic: Topic): seq<string> {
    match topic
    case Capture => ["capture", "snapshot", "collect", "coverage", "baseline", "golden"]
    case Files => ["hash", "sha256", "checksum", "integrity", "tamper"]
    case Logs => ["log", "syslog", "journal"]
    case Accounts => ["account", "user", "group", "member", "drift"]
    case BaselineDrift => ["drift", "baseline", "deviation"]
    case ProcessNetwork => ["correlat", "process", "network"]
    case SshKeys => ["ssh", "authorized_keys", "key"]
    case Persistence => ["persistence", "autorun", "startup", "cron", "scheduled"]
    case Network => ["network", "connection", "port", "listen", "listener", "lateral", "beacon", "socket"]
    case Privileges => ["privilege", "escalat", "admin", "root", "sudo", "whoami", "unauthori"]
  }

  function ToolsOn(topic: Topic): seq<string> {
    match topic
    case Capture => ["capture_coverage_baseline"]
    case Files => ["hash_binary", "inspect_persistence_locations"]
    case Logs => ["read_syslog", "audit_account_changes"]
    case Accounts => ["audit_account_changes", "inspect_persistence_locations", "check_privilege_escalation_vectors"]
    case BaselineDrift => ["correlate_process_network", "audit_account_changes", "inspect_persistence_locations"]
    case ProcessNetwork => ["correlate_process_network", "scan_network", "audit_account_changes"]
    case SshKeys =>
      ["enumerate_ssh_keys", "audit_account_changes", "inspect_persistence_locations", "check_privilege_escalation_vectors"]
    case Persistence => ["inspect_persistence_locations", "audit_account_changes", "read_syslog"]
    case Network => ["scan_network", "correlate_process_network", "audit_account_changes"]
    case Privileges => ["check_privilege_escalation_vectors", "audit_account_changes", "inspect_persistence_locations"]
  }

  function IndexOf(topic: Topic): (i: nat)
    ensures i < 10
  {
    match topic
    case Capture => 0
    case Files => 1
    case Logs => 2
    case Accounts => 3
    case BaselineDrift => 4
    case ProcessNetwork => 5
    case SshKeys => 6
    case Persistence => 7
    case Network => 8
    case Privileges => 9
  }

  function TopicAt(i: nat): (topic: Topic)
    requires i < 10
    ensures IndexOf(topic) == i
  {
    if i == 0 then Capture else if i == 1 then Files else if i == 2 then Logs else if i == 3 then Accounts
    else if i == 4 then BaselineDrift else if i == 5 then ProcessNetwork else if i == 6 then SshKeys
    else if i == 7 then Persistence else if i == 8 then Network else Privileges
  }

  lemma TemplatesAreTopics(topic: Topic)
    ensures |DRY_RUN_TEMPLATES| == 10
    ensures DRY_RUN_TEMPLATES[IndexOf(topic)].keywords == WordsOf(topic)
    ensures DRY_RUN_TEMPLATES[IndexOf(topic)].tools == ToolsOn(topic)
  {
  }

  /** How many of the words occur in the text. */
  function OccurrenceCount(text: string, words: seq<string>): nat {
    |set i | 0 <= i < |words| && Contains(text, words[i])|
  }

  lemma {:induction false} ScoreIsCount(text: string, words: seq<string>)
    ensures Score(words, k => Contains(text, k)) == OccurrenceCount(text, words)
  {
    hide Contains;
    var places := set i | 0 <= i < |words| && Contains(text, words[i]);
    if words == [] {
      assert places == {};
    } else {
      var n := |words| - 1;
      var before := set i | 0 <= i < n && Contains(text, words[..n][i]);
      ScoreIsCount(text, words[..n]);
      assert places == before + if Contains(text, words[n]) then {n} else {};
    }
  }

  lemma TopicScores(text: string)
    ensures var scores := Scores(DRY_RUN_TEMPLATES, k => Contains(text, k));
      |scores| == 10 && forall topic: Topic :: scores[IndexOf(topic)] == OccurrenceCount(text, WordsOf(topic))
  {
    hide OccurrenceCount, DRY_RUN_TEMPLATES, Contains;
    TemplatesAreTopics(Capture);
    forall topic: Topic
      ensures Scores(DRY_RUN_TEMPLATES, k => Contains(text, k))[IndexOf(topic)] == OccurrenceCount(text, WordsOf(topic))
    {
      TemplatesAreTopics(topic);
      ScoreIsCount(text, WordsOf(topic));
    }
  }

  /** The tools of a dry run are those of the topic of which most words occur in the task, as parts of words
      too, and the first such topic; the broad five if none occurs. */
  lemma TopicDecides(text: string)
    ensures var tools := DryRunTools(text);
      if forall topic: Topic :: OccurrenceCount(text, WordsOf(topic)) == 0
      then tools == ["audit_account_changes", "inspect_persistence_locations", "read_syslog", "scan_network",
                     "check_privilege_escalation_vectors"]
      else exists topic: Topic :: tools == ToolsOn(topic) && forall other: Topic ::
        && OccurrenceCount(text, WordsOf(other)) <= OccurrenceCount(text, WordsOf(topic))
        && (IndexOf(other) < IndexOf(topic) ==> OccurrenceCount(text, WordsOf(other)) < OccurrenceCount(text, WordsOf(topic)))
  {
    TopicScores(text);
    hide Scores, OccurrenceCount, WordsOf, ToolsOn, DRY_RUN_TEMPLATES, Contains;
    var scores := Scores(DRY_RUN_TEMPLATES, k => Contains(text, k));
    var best := EarliestBest(scores);
    if best.Some? {
      var topic := TopicAt(best.value);
      TemplatesAreTopics(topic);
      hide IndexOf;
      assert scores[IndexOf(topic)] > 0;
    } else {
      forall topic: Topic ensures OccurrenceCount(text, WordsOf(topic)) == 0 {
        assert scores[IndexOf(topic)] == 0;
      }
    }
  }
}
