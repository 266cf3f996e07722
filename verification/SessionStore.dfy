/**
 The S3-backed transcript store: a printer and parser of JSON lines over string
 name keys that together behave like a map from session keys to append-only
 logs.
 */
module JsonLines {
  import opened Common

  /**
   `json.dumps` with compact separators and `json.loads`. Only what `Faithful`
   says about them is used: they are inverse, and a transcript entry (a JSON
   object) prints as one run of printable ASCII between braces, because
   `ensure_ascii` escapes every other character (section 7 of RFC 8259).
   */
  datatype Json<!E> = Json(dumps: E -> string, loads: string -> Option<E>)

  predicate Printable(text: string) {
    && |text| >= 2
    && text[0] == '{'
    && text[|text| - 1] == '}'
    && forall c | c in text :: ' ' <= c <= '~'
  }

  ghost predicate Faithful<E(!new)>(json: Json<E>) {
    forall e :: json.loads(json.dumps(e)) == Some(e) && Printable(json.dumps(e))
  }

  /** The assumption can be met: a codec for the two objects of a one-bit world. */
  lemma FaithfulCodecExists()
    ensures exists json: Json<bool> :: Faithful(json)
  {
    var json: Json<bool> := Json(
      (b: bool) => if b then "{1}" else "{0}",
      (s: string) => if s == "{1}" then Some(true) else if s == "{0}" then Some(false) else None);
    forall b
      ensures json.loads(json.dumps(b)) == Some(b) && Printable(json.dumps(b))
    {
      assert json.dumps(b) == "{1}" || json.dumps(b) == "{0}";
    }
    assert Faithful(json);
  }

  // ------------------------------------------------------ Python string methods

  /** The line boundaries of `str.splitlines`. */
  predicate IsBreak(c: char) {
    c in "\n\r\U{0b}\U{0c}\U{1c}\U{1d}\U{1e}\U{85}\U{2028}\U{2029}"
  }

  /** The characters removed by `str.strip`. */
  predicate IsSpace(c: char) {
    || IsBreak(c)
    || c in " \t\U{1f}\U{a0}\U{1680}\U{202f}\U{205f}\U{3000}"
    || '\U{2000}' <= c <= '\U{200a}'
  }

  function FirstBreak(s: string): (n: nat)
    ensures n <= |s|
    ensures forall i | 0 <= i < n :: !IsBreak(s[i])
    ensures n < |s| ==> IsBreak(s[n])
  {
    if s == "" || IsBreak(s[0]) then 0 else 1 + FirstBreak(s[1..])
  }

  function SplitLines(s: string): seq<string>
    decreases |s|
  {
    if s == "" then []
    else
      var n := FirstBreak(s);
      if n == |s| then [s]
      else if n + 1 < |s| && s[n] == '\r' && s[n + 1] == '\n' then [s[..n]] + SplitLines(s[n + 2..])
      else [s[..n]] + SplitLines(s[n + 1..])
  }

  function StripLeft(s: string): string {
    if s != "" && IsSpace(s[0]) then StripLeft(s[1..]) else s
  }

  function StripRight(s: string): string {
    if s != "" && IsSpace(s[|s| - 1]) then StripRight(s[..|s| - 1]) else s
  }

  function Strip(s: string): string {
    StripRight(StripLeft(s))
  }

  /** `"\n".join(lines)`. */
  function Join(lines: seq<string>): string {
    if lines == [] then "" else if |lines| == 1 then lines[0] else lines[0] + "\n" + Join(lines[1..])
  }

  // ---------------------------------------------------------- printer and parser

  function Printed<E>(json: Json<E>, entries: seq<E>): seq<string> {
    seq(|entries|, i requires 0 <= i < |entries| => json.dumps(entries[i]))
  }

  /** The body that is written for a list of entries. */
  function Body<E>(json: Json<E>, entries: seq<E>): string {
    var body := Join(Printed(json, entries));
    if body != "" && body[|body| - 1] != '\n' then body + "\n" else body
  }

  /** What one line of an object contributes: nothing when it is blank or malformed. */
  function Parsed<E>(json: Json<E>, line: string): seq<E> {
    var text := Strip(line);
    if text == "" || json.loads(text).None? then [] else [json.loads(text).value]
  }

  function Entries<E>(json: Json<E>, lines: seq<string>): seq<E> {
    if lines == [] then [] else Entries(json, lines[..|lines| - 1]) + Parsed(json, lines[|lines| - 1])
  }

  method ReadJsonl<E>(json: Json<E>, body: string) returns (entries: seq<E>)
    ensures entries == Entries(json, SplitLines(body))
  {
    entries := [];
    var lines := SplitLines(body);
    for i := 0 to |lines|
      invariant entries == Entries(json, lines[..i])
    {
      assert lines[..i + 1][..i] == lines[..i];
      var line := Strip(lines[i]);
      if line != "" {
        var entry := json.loads(line);
        if entry.Some? {
          entries := entries + [entry.value];
        }
      }
    }
    assert lines[..|lines|] == lines;
  }

  lemma PrintableIsOneLine(text: string)
    requires Printable(text)
    ensures forall i | 0 <= i < |text| :: !IsBreak(text[i])
    ensures Strip(text) == text
  {
    forall i | 0 <= i < |text|
      ensures !IsBreak(text[i])
    {
      assert text[i] in text;
    }
    assert StripLeft(text) == text;
  }

  /** A line without a break, followed by a newline, comes off the front of the text. */
  lemma SplitFirst(line: string, rest: string)
    requires forall i | 0 <= i < |line| :: !IsBreak(line[i])
    ensures SplitLines(line + "\n" + rest) == [line] + SplitLines(rest)
  {
    var s := line + "\n" + rest;
    assert s[|line|] == '\n';
    var n := FirstBreak(s);
    assert forall i | 0 <= i < |line| :: s[i] == line[i];
    assert n == |line|;
    assert s[..n] == line && s[n + 1..] == rest;
  }

  /** The lines, each followed by a newline. */
  function Terminated(lines: seq<string>): string {
    if lines == [] then "" else lines[0] + "\n" + Terminated(lines[1..])
  }

  lemma {:induction false} SplitTerminated(lines: seq<string>)
    requires forall line | line in lines :: Printable(line)
    ensures SplitLines(Terminated(lines)) == lines
  {
    if lines != [] {
      SplitTerminated(lines[1..]);
      PrintableIsOneLine(lines[0]);
      SplitFirst(lines[0], Terminated(lines[1..]));
    }
  }

  lemma {:induction false} JoinedIsTerminated(lines: seq<string>)
    requires lines != []
    requires forall line | line in lines :: Printable(line)
    ensures Join(lines) + "\n" == Terminated(lines)
    ensures Join(lines) != "" && Join(lines)[|Join(lines)| - 1] == '}'
  {
    if |lines| > 1 {
      JoinedIsTerminated(lines[1..]);
    } else {
      assert lines[1..] == [];
      assert lines[0] in lines;
    }
  }

  lemma ParsedPrinted<E(!new)>(json: Json<E>, e: E)
    requires Faithful(json)
    ensures Parsed(json, json.dumps(e)) == [e]
  {
    PrintableIsOneLine(json.dumps(e));
  }

  lemma EntriesNext<E>(json: Json<E>, lines: seq<string>, line: string)
    ensures Entries(json, lines + [line]) == Entries(json, lines) + Parsed(json, line)
  {
    assert (lines + [line])[..|lines|] == lines;
  }

  lemma PrintedNext<E>(json: Json<E>, entries: seq<E>, e: E)
    ensures Printed(json, entries + [e]) == Printed(json, entries) + [json.dumps(e)]
  {
  }

  lemma EntriesOfPrintedNext<E(!new)>(json: Json<E>, front: seq<E>, e: E)
    requires Faithful(json) && Entries(json, Printed(json, front)) == front
    ensures Entries(json, Printed(json, front + [e])) == front + [e]
  {
    PrintedNext(json, front, e);
    EntriesNext(json, Printed(json, front), json.dumps(e));
    ParsedPrinted(json, e);
  }

  lemma {:induction false} EntriesOfPrinted<E(!new)>(json: Json<E>, entries: seq<E>)
    requires Faithful(json)
    ensures Entries(json, Printed(json, entries)) == entries
  {
    if entries != [] {
      var front, last := entries[..|entries| - 1], entries[|entries| - 1];
      assert entries == front + [last];
      EntriesOfPrinted(json, front);
      EntriesOfPrintedNext(json, front, last);
    }
  }

  /** Parsing what was printed gives the entries back. */
  lemma {:induction false} RoundTrip<E(!new)>(json: Json<E>, entries: seq<E>)
    requires Faithful(json)
    ensures Entries(json, SplitLines(Body(json, entries))) == entries
  {
    EntriesOfPrinted(json, entries);
    if entries != [] {
      JoinedIsTerminated(Printed(json, entries));
      SplitTerminated(Printed(json, entries));
    }
  }

  // ------------------------------------------------- what the reader puts up with

  lemma {:induction false} EntriesConcat<E>(json: Json<E>, a: seq<string>, b: seq<string>)
    ensures Entries(json, a + b) == Entries(json, a) + Entries(json, b)
  {
    if b == [] {
      assert a + b == a;
    } else {
      assert (a + b)[..|a + b| - 1] == a + b[..|b| - 1];
      EntriesConcat(json, a, b[..|b| - 1]);
    }
  }

  /** A blank or malformed line between others loses nothing but itself. */
  lemma BadLinesAreSkipped<E>(json: Json<E>, before: seq<string>, line: string, after: seq<string>)
    requires Strip(line) == "" || json.loads(Strip(line)).None?
    ensures Entries(json, before + [line] + after) == Entries(json, before + after)
  {
    EntriesNext(json, before, line);
    EntriesConcat(json, before + [line], after);
    EntriesConcat(json, before, after);
  }

  /** Spaces around an entry do not matter. */
  lemma PaddingIsStripped<E(!new)>(json: Json<E>, e: E, line: string)
    requires Faithful(json) && line == " " + json.dumps(e) + "\t"
    ensures Parsed(json, line) == [e]
  {
    var text := json.dumps(e);
    PrintableIsOneLine(text);
    assert line[1..] == text + "\t" && StripLeft(line) == StripLeft(line[1..]);
    assert StripLeft(text + "\t") == text + "\t";
    assert (text + "\t")[..|text|] == text;
    assert StripRight(text + "\t") == StripRight(text);
    assert StripRight(text) == text;
  }

  /** The code points at which `splitlines` breaks and which `strip` removes. */
  lemma LineBreaksAndSpaces(c: char)
    ensures IsBreak(c) <==> c as int in {10, 11, 12, 13, 28, 29, 30, 133, 8232, 8233}
    ensures
      IsSpace(c) <==>
      IsBreak(c) || c as int in {9, 31, 32, 160, 5760, 8239, 8287, 12288} || 8192 <= c as int <= 8202
  {
  }

  /** The body ends each entry with a newline, and is empty without entries. */
  lemma BodyIsTerminated<E(!new)>(json: Json<E>, entries: seq<E>)
    requires Faithful(json)
    ensures Body(json, entries) == Terminated(Printed(json, entries))
  {
    if entries != [] { JoinedIsTerminated(Printed(json, entries)); }
  }

  /** The lines, each followed by a carriage return and a newline. */
  function TerminatedCrLf(lines: seq<string>): string {
    if lines == [] then "" else lines[0] + "\r\n" + TerminatedCrLf(lines[1..])
  }

  lemma SplitFirstCrLf(line: string, rest: string)
    requires forall i | 0 <= i < |line| :: !IsBreak(line[i])
    ensures SplitLines(line + "\r\n" + rest) == [line] + SplitLines(rest)
  {
    var s := line + "\r\n" + rest;
    assert s[|line|] == '\r' && s[|line| + 1] == '\n';
    assert forall i | 0 <= i < |line| :: s[i] == line[i];
    var n := FirstBreak(s);
    assert n == |line|;
    assert s[..n] == line && s[n + 2..] == rest;
  }

  lemma {:induction false} SplitTerminatedCrLf(lines: seq<string>)
    requires forall line | line in lines :: Printable(line)
    ensures SplitLines(TerminatedCrLf(lines)) == lines
  {
    if lines != [] {
      SplitTerminatedCrLf(lines[1..]);
      PrintableIsOneLine(lines[0]);
      SplitFirstCrLf(lines[0], TerminatedCrLf(lines[1..]));
    }
  }

  /** A transcript whose lines end the other way reads the same. */
  lemma CrLfRoundTrip<E(!new)>(json: Json<E>, entries: seq<E>)
    requires Faithful(json)
    ensures Entries(json, SplitLines(TerminatedCrLf(Printed(json, entries)))) == entries
  {
    EntriesOfPrinted(json, entries);
    SplitTerminatedCrLf(Printed(json, entries));
  }
}

module SessionStore {
  import opened Common
  import opened JsonLines

  datatype SessionKey = SessionKey(project: string, session: string, subpath: Option<string>)

  predicate SlashFree(s: string) {
    '/' !in s
  }

  /** Project keys and session ids as the SDK makes them: no slash in either. */
  predicate WellFormed(k: SessionKey) {
    SlashFree(k.project) && SlashFree(k.session)
  }

  /** An empty subpath names the main transcript. */
  function Canonical(k: SessionKey): SessionKey {
    if k.subpath == Some("") then k.(subpath := None) else k
  }

  function Root(prefix: string): string {
    if prefix == "" then "" else prefix + "/"
  }

  function Head(prefix: string, k: SessionKey): string {
    Root(prefix) + (k.project + "/" + k.session)
  }

  predicate NamesSubagent(k: SessionKey) {
    k.subpath.Some? && k.subpath.value != ""
  }

  function ObjectKey(prefix: string, k: SessionKey): string {
    if NamesSubagent(k)
    then Head(prefix, k) + "/" + k.subpath.value + ".jsonl"
    else Head(prefix, k) + ".jsonl"
  }

  function SessionPrefix(prefix: string, k: SessionKey): string {
    Head(prefix, k) + "/"
  }

  // ------------------------------------------------------------------ keys

  lemma CancelLeft(r: string, x: string, y: string)
    requires r + x == r + y
    ensures x == y
  {
    assert x == (r + x)[|r|..] && y == (r + y)[|r|..];
  }

  lemma CancelRight(x: string, y: string, r: string)
    requires x + r == y + r
    ensures x == y
  {
    assert x == (x + r)[..|x + r| - |r|] && y == (y + r)[..|y + r| - |r|];
  }

  /** The part of an object key after the project. */
  function Tail(k: SessionKey): string {
    if NamesSubagent(k)
    then k.session + "/" + (k.subpath.value + ".jsonl")
    else k.session + ".jsonl"
  }

  lemma KeyParts(prefix: string, k: SessionKey)
    ensures ObjectKey(prefix, k) == Root(prefix) + (k.project + "/" + Tail(k))
    ensures SessionPrefix(prefix, k) == Root(prefix) + (k.project + "/" + (k.session + "/"))
  {
    assert k.session + "/" + ".jsonl" == k.session + ("/" + ".jsonl");
  }

  /** Different logs live in different objects. */
  lemma ObjectKeyInjective(prefix: string, a: SessionKey, b: SessionKey)
    requires WellFormed(a) && WellFormed(b)
    ensures ObjectKey(prefix, a) == ObjectKey(prefix, b) <==> Canonical(a) == Canonical(b)
  {
    if ObjectKey(prefix, a) == ObjectKey(prefix, b) {
      KeyParts(prefix, a);
      KeyParts(prefix, b);
      CancelLeft(Root(prefix), a.project + "/" + Tail(a), b.project + "/" + Tail(b));
      CutAt('/', a.project, Tail(a), b.project, Tail(b));
      TailInjective(a, b);
    }
  }

  lemma TailHasSlash(k: SessionKey)
    requires WellFormed(k)
    ensures '/' in Tail(k) <==> NamesSubagent(k)
  {
    if NamesSubagent(k) {
      assert Tail(k)[|k.session|] == '/';
    }
  }

  lemma TailInjective(a: SessionKey, b: SessionKey)
    requires WellFormed(a) && WellFormed(b)
    requires a.project == b.project && Tail(a) == Tail(b)
    ensures Canonical(a) == Canonical(b)
  {
    TailHasSlash(a);
    TailHasSlash(b);
    if NamesSubagent(a) {
      CutAt('/', a.session, a.subpath.value + ".jsonl", b.session, b.subpath.value + ".jsonl");
      CancelRight(a.subpath.value, b.subpath.value, ".jsonl");
    } else {
      CancelRight(a.session, b.session, ".jsonl");
    }
  }

  /** After the project, whatever begins with the session and a slash is a subagent transcript of it. */
  lemma TailCovered(k: SessionKey, other: SessionKey, rest: string)
    requires WellFormed(k) && WellFormed(other) && k.session + "/" + rest == Tail(other)
    ensures k.session == other.session && NamesSubagent(other)
  {
    var t := k.session + "/" + rest;
    assert t[|k.session|] == '/';
    TailHasSlash(other);
    CutAt('/', k.session, rest, other.session, other.subpath.value + ".jsonl");
  }

  lemma CoveredKey(prefix: string, k: SessionKey, other: SessionKey)
    requires WellFormed(k) && WellFormed(other) && SessionPrefix(prefix, k) <= ObjectKey(prefix, other)
    ensures k.project == other.project && k.session == other.session && NamesSubagent(other)
  {
    var p, o := SessionPrefix(prefix, k), ObjectKey(prefix, other);
    var rest := o[|p|..];
    var session := k.session + "/" + rest;
    KeyParts(prefix, k);
    KeyParts(prefix, other);
    assert Root(prefix) + (k.project + "/" + session) == p + rest == o;
    CancelLeft(Root(prefix), k.project + "/" + session, other.project + "/" + Tail(other));
    CutAt('/', k.project, session, other.project, Tail(other));
    TailCovered(k, other, rest);
  }

  /** The sweep of a session reaches exactly its subagent transcripts. */
  lemma PrefixCoversSession(prefix: string, k: SessionKey, other: SessionKey)
    requires WellFormed(k) && WellFormed(other)
    ensures
      SessionPrefix(prefix, k) <= ObjectKey(prefix, other) <==>
      k.project == other.project && k.session == other.session && NamesSubagent(other)
  {
    if k.project == other.project && k.session == other.session && NamesSubagent(other) {
      assert ObjectKey(prefix, other) == SessionPrefix(prefix, k) + (other.subpath.value + ".jsonl");
    }
    if SessionPrefix(prefix, k) <= ObjectKey(prefix, other) { CoveredKey(prefix, k, other); }
  }

  /** The place of a slash. */
  lemma {:induction false} SplitAtSlash(s: string) returns (left: string, right: string)
    requires '/' in s
    ensures s == left + "/" + right
  {
    if s[0] == '/' {
      left, right := "", s[1..];
    } else {
      left, right := SplitAtSlash(s[1..]);
      left := [s[0]] + left;
      assert s == [s[0]] + s[1..];
    }
  }

  lemma SameHead(prefix: string, a: SessionKey, b: SessionKey)
    requires a.project + "/" + a.session == b.project + "/" + b.session && a.subpath == b.subpath
    ensures ObjectKey(prefix, a) == ObjectKey(prefix, b)
  {
  }

  /**
   Slash-free parts are not only enough: every key with a slash in its project or its
   session shares its object with the key of another log, the slash read elsewhere.
   */
  lemma SlashesCollide(prefix: string, k: SessionKey) returns (other: SessionKey)
    requires !WellFormed(k)
    ensures ObjectKey(prefix, k) == ObjectKey(prefix, other) && Canonical(k) != Canonical(other)
  {
    if '/' in k.project {
      var left, right := SplitAtSlash(k.project);
      other := k.(project := left, session := right + "/" + k.session);
      assert |other.project| < |k.project|;
    } else {
      var left, right := SplitAtSlash(k.session);
      other := k.(project := k.project + "/" + left, session := right);
      assert |other.project| > |k.project|;
    }
    assert k.project + "/" + k.session == other.project + "/" + other.session;
    SameHead(prefix, k, other);
  }

  // ------------------------------------------------- the three store operations

  type Bucket = map<string, string>

  /** `_read_jsonl` with a missing object read as the empty list. */
  function Stored<E>(json: Json<E>, bucket: Bucket, name: string): seq<E> {
    if name in bucket then Entries(json, SplitLines(bucket[name])) else []
  }

  function Appended<E>(json: Json<E>, bucket: Bucket, name: string, entries: seq<E>): Bucket {
    if entries == [] then bucket
    else bucket[name := Body(json, Stored(json, bucket, name) + entries)]
  }

  function Loaded<E>(json: Json<E>, bucket: Bucket, name: string): Option<seq<E>> {
    if Stored(json, bucket, name) == [] then None else Some(Stored(json, bucket, name))
  }

  /** Whether deleting `k` removes the object. */
  predicate Removes(prefix: string, k: SessionKey, name: string) {
    name == ObjectKey(prefix, k) || (k.subpath.None? && SessionPrefix(prefix, k) <= name)
  }

  function Deleted(prefix: string, bucket: Bucket, k: SessionKey): Bucket {
    map o | o in bucket && !Removes(prefix, k, o) :: bucket[o]
  }

  function StripSlashes(s: string): string {
    if s != "" && s[0] == '/' then StripSlashes(s[1..])
    else if s != "" && s[|s| - 1] == '/' then StripSlashes(s[..|s| - 1])
    else s
  }

  predicate OnlySlashes(s: string) {
    forall c | c in s :: c == '/'
  }

  /** No slash at either end. */
  predicate Bare(s: string) {
    s != "" ==> s[0] != '/' && s[|s| - 1] != '/'
  }

  /** Stripping takes every slash at both ends and nothing else. */
  lemma {:induction false} StripsOnlySlashes(s: string) returns (left: string, right: string)
    ensures s == left + StripSlashes(s) + right
    ensures OnlySlashes(left) && OnlySlashes(right) && Bare(StripSlashes(s))
  {
    left, right := "", "";
    if s != "" && s[0] == '/' {
      var rest := s[1..];
      left, right := StripsOnlySlashes(rest);
      assert s == "/" + rest && StripSlashes(s) == StripSlashes(rest);
      assert "/" + (left + StripSlashes(rest) + right) == ("/" + left) + StripSlashes(rest) + right;
      left := "/" + left;
    } else if s != "" && s[|s| - 1] == '/' {
      var rest := s[..|s| - 1];
      left, right := StripsOnlySlashes(rest);
      assert s == rest + "/" && StripSlashes(s) == StripSlashes(rest);
      assert (left + StripSlashes(rest) + right) + "/" == left + StripSlashes(rest) + (right + "/");
      right := right + "/";
    } else {
      assert StripSlashes(s) == s;
    }
  }

  lemma HeadOf(prefix: string, k: SessionKey)
    requires prefix != ""
    ensures Head(prefix, k) == prefix + "/" + k.project + "/" + k.session
  {
    assert Head(prefix, k) == (prefix + "/") + (k.project + "/" + k.session);
  }

  /** The names of a main and of a subagent transcript. */
  lemma NamesInTheBucket(prefix: string, project: string, session: string, subpath: string)
    requires prefix != "" && subpath != ""
    ensures
      ObjectKey(prefix, SessionKey(project, session, None)) == prefix + "/" + project + "/" + session + ".jsonl"
    ensures
      ObjectKey(prefix, SessionKey(project, session, Some(subpath)))
      == prefix + "/" + project + "/" + session + "/" + subpath + ".jsonl"
  {
    HeadOf(prefix, SessionKey(project, session, None));
    HeadOf(prefix, SessionKey(project, session, Some(subpath)));
  }

  /** Without a prefix the name begins with the project. */
  lemma NamesWithoutPrefix(k: SessionKey)
    requires k.subpath.None?
    ensures ObjectKey("", k) == k.project + "/" + k.session + ".jsonl"
  {
    assert "" + (k.project + "/" + k.session) == k.project + "/" + k.session;
  }

  predicate OnPage(pages: seq<seq<string>>, o: string) {
    exists page :: page in pages && o in page
  }

  lemma PageAdded(pages: seq<seq<string>>, page: seq<string>)
    ensures forall o :: OnPage(pages + [page], o) <==> OnPage(pages, o) || o in page
  {
    forall o
      ensures OnPage(pages + [page], o) <==> OnPage(pages, o) || o in page
    {
      if OnPage(pages, o) {
        var p :| p in pages && o in p;
        assert p in pages + [page];
      }
      if o in page {
        assert page in pages + [page];
      }
    }
  }

  class S3SessionStore<E> {
    const json: Json<E>
    const prefix: string
    var bucket: Bucket

    constructor (json: Json<E>, prefix: string, bucket: Bucket)
      ensures this.json == json && this.prefix == StripSlashes(prefix) && this.bucket == bucket
    {
      this.json := json;
      this.prefix := StripSlashes(prefix);
      this.bucket := bucket;
    }

    method Append(key: SessionKey, entries: seq<E>)
      modifies this
      ensures bucket == Appended(json, old(bucket), ObjectKey(prefix, key), entries)
      ensures entries == [] ==> bucket == old(bucket)
      ensures entries != [] ==> bucket.Keys == old(bucket).Keys + {ObjectKey(prefix, key)}
      ensures forall o :: o in old(bucket) && o != ObjectKey(prefix, key) ==> bucket[o] == old(bucket)[o]
    {
      if |entries| == 0 {
        return;
      }
      var name := ObjectKey(prefix, key);
      var existing: seq<E> := [];
      if name in bucket {
        existing := ReadJsonl(json, bucket[name]);
      }
      existing := existing + entries;
      bucket := bucket[name := Body(json, existing)];
    }

    method Load(key: SessionKey) returns (entries: Option<seq<E>>)
      ensures entries == Loaded(json, bucket, ObjectKey(prefix, key))
    {
      var name := ObjectKey(prefix, key);
      if name !in bucket {
        return None;
      }
      var found := ReadJsonl(json, bucket[name]);
      entries := if |found| == 0 then None else Some(found);
    }

    method Delete(key: SessionKey)
      modifies this
      ensures bucket == Deleted(prefix, old(bucket), key)
    {
      bucket := bucket - {ObjectKey(prefix, key)};
      if key.subpath.None? {
        DeletePrefix(SessionPrefix(prefix, key));
      }
    }

    /** The pages of `list_objects_v2`: every key under the prefix is on some page. */
    method ListPages(start: string) returns (pages: seq<seq<string>>)
      ensures forall o :: OnPage(pages, o) <==> o in bucket && start <= o
    {
      pages := [];
      var left := set o | o in bucket && start <= o;
      while left != {}
        invariant forall o :: o in left ==> o in bucket && start <= o
        invariant forall o :: o in left || OnPage(pages, o) <==> o in bucket && start <= o
        decreases |left|
      {
        var o :| o in left;
        left := left - {o};
        PageAdded(pages, [o]);
        pages := pages + [[o]];
      }
    }

    method DeletePrefix(start: string)
      modifies this
      ensures bucket == map o | o in old(bucket) && !(start <= o) :: old(bucket)[o]
    {
      var pages := ListPages(start);
      for i := 0 to |pages|
        invariant forall o :: o in bucket <==> o in old(bucket) && !OnPage(pages[..i], o)
        invariant forall o :: o in bucket ==> bucket[o] == old(bucket)[o]
      {
        if |pages[i]| > 0 {
          bucket := bucket - set o | o in pages[i];
        }
        PageAdded(pages[..i], pages[i]);
        assert pages[..i + 1] == pages[..i] + [pages[i]];
      }
      assert pages[..|pages|] == pages;
    }
  }

  // --------------------------------------------------------------- refinement

  datatype Op<E> = Append(key: SessionKey, entries: seq<E>) | Delete(key: SessionKey)

  function Apply<E>(json: Json<E>, prefix: string, bucket: Bucket, op: Op<E>): Bucket {
    match op
    case Append(key, entries) => Appended(json, bucket, ObjectKey(prefix, key), entries)
    case Delete(key) => Deleted(prefix, bucket, key)
  }

  function Run<E>(json: Json<E>, prefix: string, bucket: Bucket, ops: seq<Op<E>>): Bucket {
    if ops == [] then bucket
    else Apply(json, prefix, Run(json, prefix, bucket, ops[..|ops| - 1]), ops[|ops| - 1])
  }

  /** Whether deleting `k` wipes the log of `other`: the log itself, or any log of its session. */
  predicate Wipes(k: SessionKey, other: SessionKey) {
    Canonical(k) == Canonical(other) || (k.subpath.None? && k.project == other.project && k.session == other.session)
  }

  function LogAfter<E>(log: seq<E>, op: Op<E>, k: SessionKey): seq<E> {
    match op
    case Append(key, entries) => if Canonical(key) == Canonical(k) then log + entries else log
    case Delete(key) => if Wipes(key, k) then [] else log
  }

  /** The entries appended to the log of `k` since it was last wiped, in order. */
  function History<E>(ops: seq<Op<E>>, k: SessionKey): seq<E> {
    if ops == [] then [] else LogAfter(History(ops[..|ops| - 1], k), ops[|ops| - 1], k)
  }

  /** The object of `k` holds exactly the log, and is absent when the log is empty. */
  ghost predicate Holds<E>(json: Json<E>, prefix: string, bucket: Bucket, k: SessionKey, log: seq<E>) {
    var name := ObjectKey(prefix, k);
    if log == [] then name !in bucket else name in bucket && bucket[name] == Body(json, log)
  }

  lemma {:induction false} HeldLogIsLoaded<E(!new)>(json: Json<E>, prefix: string, bucket: Bucket, k: SessionKey,
          log: seq<E>)
    requires Faithful(json) && Holds(json, prefix, bucket, k, log)
    ensures Stored(json, bucket, ObjectKey(prefix, k)) == log
  {
    RoundTrip(json, log);
  }

  lemma DeleteRemovesWiped(prefix: string, k: SessionKey, other: SessionKey)
    requires WellFormed(k) && WellFormed(other)
    ensures Removes(prefix, k, ObjectKey(prefix, other)) <==> Wipes(k, other)
  {
    ObjectKeyInjective(prefix, k, other);
    PrefixCoversSession(prefix, k, other);
  }

  lemma AppendKeepsHistory<E(!new)>(
      json: Json<E>, prefix: string, bucket: Bucket, key: SessionKey, entries: seq<E>, k: SessionKey, log: seq<E>)
    requires Faithful(json) && WellFormed(k) && WellFormed(key)
    requires Holds(json, prefix, bucket, k, log)
    ensures
      Holds(json, prefix, Appended(json, bucket, ObjectKey(prefix, key), entries), k,
            LogAfter(log, Append(key, entries), k))
  {
    ObjectKeyInjective(prefix, key, k);
    HeldLogIsLoaded(json, prefix, bucket, k, log);
    if entries == [] {
      assert log + entries == log;
    }
  }

  lemma DeleteKeepsHistory<E>(
      json: Json<E>, prefix: string, bucket: Bucket, key: SessionKey, k: SessionKey, log: seq<E>)
    requires WellFormed(k) && WellFormed(key)
    requires Holds(json, prefix, bucket, k, log)
    ensures Holds(json, prefix, Deleted(prefix, bucket, key), k, LogAfter(log, Delete(key), k))
  {
    DeleteRemovesWiped(prefix, key, k);
  }

  lemma {:induction false} RunHoldsHistory<E(!new)>(
      json: Json<E>, prefix: string, bucket: Bucket, ops: seq<Op<E>>, k: SessionKey)
    requires Faithful(json) && WellFormed(k)
    requires forall op | op in ops :: WellFormed(op.key)
    requires ObjectKey(prefix, k) !in bucket
    ensures Holds(json, prefix, Run(json, prefix, bucket, ops), k, History(ops, k))
  {
    if ops != [] {
      var n := |ops| - 1;
      RunHoldsHistory(json, prefix, bucket, ops[..n], k);
      var before := Run(json, prefix, bucket, ops[..n]);
      match ops[n]
      case Append(key, entries) => AppendKeepsHistory(json, prefix, before, key, entries, k, History(ops[..n], k));
      case Delete(key) => DeleteKeepsHistory(json, prefix, before, key, k, History(ops[..n], k));
    }
  }

  /**
   The store is a map from session keys to append-only logs: whatever was done
   before, a load returns the batches appended to that very log since it was last
   deleted, one after the other, and nothing when there are none.
   */
  lemma {:induction false} LoadReturnsHistory<E(!new)>(
      json: Json<E>, prefix: string, bucket: Bucket, ops: seq<Op<E>>, k: SessionKey)
    requires Faithful(json) && WellFormed(k)
    requires forall op | op in ops :: WellFormed(op.key)
    requires ObjectKey(prefix, k) !in bucket
    ensures
      Loaded(json, Run(json, prefix, bucket, ops), ObjectKey(prefix, k)) ==
      if History(ops, k) == [] then None else Some(History(ops, k))
  {
    RunHoldsHistory(json, prefix, bucket, ops, k);
    HeldLogIsLoaded(json, prefix, Run(json, prefix, bucket, ops), k, History(ops, k));
  }

  /**
   Deleting a main transcript empties every log of its session, in any bucket, and
   leaves every other session's objects alone, also when one id extends the other.
   */
  lemma DeleteIsCompleteAndIsolated<E>(
      json: Json<E>, prefix: string, bucket: Bucket, k: SessionKey, other: SessionKey)
    requires WellFormed(k) && WellFormed(other) && k.subpath.None?
    ensures
      var after := Deleted(prefix, bucket, k);
      var name := ObjectKey(prefix, other);
      if k.project == other.project && k.session == other.session
      then Loaded(json, after, name) == None
      else (name in after <==> name in bucket) && (name in bucket ==> after[name] == bucket[name])
  {
    DeleteRemovesWiped(prefix, k, other);
  }

  /** An empty subpath reads and writes the main transcript, but deleting it spares the subagents. */
  lemma EmptySubpathDeletesOnlyMain(prefix: string, bucket: Bucket, k: SessionKey, other: SessionKey)
    requires WellFormed(k) && WellFormed(other) && k.subpath == Some("")
    ensures
      var name := ObjectKey(prefix, other);
      name in Deleted(prefix, bucket, k) <==> name in bucket && Canonical(other) != k.(subpath := None)
  {
    DeleteRemovesWiped(prefix, k, other);
  }
}
