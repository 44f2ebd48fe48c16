/** census.py, `iter_events`: streaming the objects of a trace's `traceEvents` array. */
module EventStream {
  const MARKER := "\"traceEvents\""
  const OVERLAP := 32

  /** The splitter's variables between two characters. `depth` may go negative after the array. */
  datatype Scan = Scan(buf: string, depth: int, inStr: bool, esc: bool, started: bool)

  const START := Scan("", 0, false, false, false)

  /** One character: the next state, and the object text that it completes, if any. */
  function Next(s: Scan, c: char): (Scan, seq<string>) {
    if s.inStr then
      var t := if s.esc then s.(esc := false) else if c == '\\' then s.(esc := true)
          else if c == '\"' then s.(inStr := false) else s;
      (Keep(t, c), [])
    else if c == '\"' then (Keep(s.(inStr := true), c), [])
    else if c == '{' then
      (Keep(if s.depth + 1 == 1 then s.(depth := 1, buf := "", started := true) else s.(depth := s.depth + 1), c), [])
    else if c == '}' then
      if s.depth - 1 == 0 && s.started then (s.(depth := 0, buf := "", started := false), [s.buf + [c]])
      else (Keep(s.(depth := s.depth - 1), c), [])
    else (Keep(s, c), [])
  }

  function Keep(s: Scan, c: char): Scan {
    if s.started then s.(buf := s.buf + [c]) else s
  }

  function After(s: Scan, text: string): Scan
    decreases text
  {
    if text == "" then s else After(Next(s, text[0]).0, text[1..])
  }

  function Emitted(s: Scan, text: string): seq<string>
    decreases text
  {
    if text == "" then [] else Next(s, text[0]).1 + Emitted(Next(s, text[0]).0, text[1..])
  }

  lemma {:induction false} ScanConcat(s: Scan, a: string, b: string)
    ensures After(s, a + b) == After(After(s, a), b)
    ensures Emitted(s, a + b) == Emitted(s, a) + Emitted(After(s, a), b)
    decreases a
  {
    if a == "" {
      assert a + b == b;
    } else {
      assert (a + b)[1..] == a[1..] + b;
      ScanConcat(Next(s, a[0]).0, a[1..], b);
    }
  }

  // ---- finding the array

  predicate OccursAt(text: string, i: nat) {
    i + |MARKER| <= |text| && text[i..i + |MARKER|] == MARKER
  }

  predicate Contains(text: string) {
    exists i: nat :: i <= |text| && OccursAt(text, i)
  }

  /** `text.index(MARKER)` */
  function IndexOf(text: string): (i: nat)
    requires Contains(text)
    ensures OccursAt(text, i) && forall j: nat :: j < i ==> !OccursAt(text, j)
  {
    IndexFrom(text, 0)
  }

  function IndexFrom(text: string, from: nat): (i: nat)
    requires exists j: nat :: from <= j <= |text| && OccursAt(text, j)
    ensures from <= i && OccursAt(text, i) && forall j: nat :: from <= j < i ==> !OccursAt(text, j)
    decreases |text| - from
  {
    if OccursAt(text, from) then from else IndexFrom(text, from + 1)
  }

  /** What a reader of the whole text would yield: the objects scanned from the first marker on. */
  function Events(text: string): seq<string> {
    if Contains(text) then Emitted(START, text[IndexOf(text)..]) else []
  }

  /** The decompressed trace, read in pieces of any size up to what is asked for. */
  class TextFile {
    var rest: string

    constructor (text: string)
      ensures rest == text
    {
      rest := text;
    }

    /** Returns the empty string at the end of the file, and only there. */
    method Read(limit: nat) returns (chunk: string)
      requires limit > 0
      modifies this
      ensures old(rest) == chunk + rest
      ensures chunk == "" <==> old(rest) == ""
      ensures |chunk| <= limit
    {
      if rest == "" {
        return "";
      }
      var size: nat :| 0 < size <= |rest| && size <= limit;
      chunk, rest := rest[..size], rest[size..];
    }
  }

  function Last(text: string, n: nat): (suffix: string)
    ensures |suffix| == if |text| < n then |text| else n
    ensures suffix <= text[|text| - |suffix|..] && text == text[..|text| - |suffix|] + suffix
  {
    if |text| < n then text else text[|text| - n..]
  }

  lemma {:induction false} OccursInSuffix(before: string, head: string, i: nat)
    ensures OccursAt(head, i) <==> OccursAt(before + head, |before| + i)
  {
    if i + |MARKER| <= |head| {
      assert head[i..i + |MARKER|] == (before + head)[|before| + i..|before| + i + |MARKER|];
    }
  }

  lemma {:induction false} OccursInPrefix(text: string, more: string, i: nat)
    requires i + |MARKER| <= |text|
    ensures OccursAt(text, i) <==> OccursAt(text + more, i)
  {
    assert text[i..i + |MARKER|] == (text + more)[i..i + |MARKER|];
  }

  /** The search window: a suffix of what was read, which either is all of it or keeps the overlap. */
  ghost predicate Window(seen: string, head: string) {
    && |head| <= |seen| && seen[|seen| - |head|..] == head
    && (|head| == |seen| || |head| >= OVERLAP)
    && forall i: nat :: i < |seen| - |head| ==> !OccursAt(seen, i)
  }

  lemma {:induction false} WindowStarts()
    ensures Window("", "")
  {
  }

  lemma {:induction false} WindowMoves(seen: string, head: string, chunk: string)
    requires Window(seen, head) && !Contains(head)
    ensures Window(seen + chunk, Last(head, OVERLAP) + chunk)
  {
    var kept := Last(head, OVERLAP);
    var head', seen' := kept + chunk, seen + chunk;
    var before := seen[..|seen| - |kept|];
    assert seen == before + kept by {
      assert seen == seen[..|seen| - |head|] + head;
    }
    assert seen' == before + head';
    forall i: nat | i < |before| ensures !OccursAt(seen', i) {
      if i + |MARKER| <= |seen| {
        OccursInPrefix(seen, chunk, i);
        if i >= |seen| - |head| {
          OccursInSuffix(seen[..|seen| - |head|], head, i - (|seen| - |head|));
          assert seen == seen[..|seen| - |head|] + head;
          assert !OccursAt(head, i - (|seen| - |head|));
        }
      }
    }
  }

  lemma {:induction false} FirstIsIndex(text: string, i: nat)
    requires OccursAt(text, i) && forall j: nat :: j < i ==> !OccursAt(text, j)
    ensures Contains(text) && IndexOf(text) == i
  {
    assert i <= |text|;
  }

  /** Characters read before the window hold no marker, whatever follows them. */
  lemma {:induction false} WindowFindsFirst(seen: string, head: string, rest: string, before: string)
    requires Window(seen, head) && Contains(head) && seen == before + head
    ensures Contains(seen + rest) && IndexOf(seen + rest) == |before| + IndexOf(head)
  {
    var i := IndexOf(head);
    OccursInSuffix(before, head, i);
    OccursInPrefix(seen, rest, |before| + i);
    forall j: nat | j < |before| + i ensures !OccursAt(seen + rest, j) {
      OccursInPrefix(seen, rest, j);
      if j >= |before| {
        OccursInSuffix(before, head, j - |before|);
      }
    }
    FirstIsIndex(seen + rest, |before| + i);
  }

  lemma {:induction false} WindowFinds(seen: string, head: string, rest: string)
    requires Window(seen, head) && Contains(head)
    ensures Contains(seen + rest)
    ensures (seen + rest)[IndexOf(seen + rest)..] == head[IndexOf(head)..] + rest
  {
    var before := seen[..|seen| - |head|];
    assert seen == before + head;
    WindowFindsFirst(seen, head, rest, before);
    SuffixAfter(before, head, rest, IndexOf(head));
  }

  lemma {:induction false} SuffixAfter(before: string, head: string, rest: string, i: nat)
    requires i <= |head|
    ensures (before + head + rest)[|before| + i..] == head[i..] + rest
  {
  }

  lemma {:induction false} WindowMisses(seen: string, head: string)
    requires Window(seen, head) && !Contains(head)
    ensures !Contains(seen)
  {
    if Contains(seen) {
      var i: nat :| i <= |seen| && OccursAt(seen, i);
      var before := seen[..|seen| - |head|];
      assert seen == before + head;
      OccursInSuffix(before, head, i - |before|);
    }
  }

  /** The search loop: reads until the marker is in the window, or the file ends. */
  method Locate(f: TextFile) returns (found: bool, tail: string)
    modifies f
    ensures found <==> Contains(old(f.rest))
    ensures found ==> tail + f.rest == old(f.rest)[IndexOf(old(f.rest))..]
  {
    hide Window, Contains, IndexOf;
    var head := "";
    ghost var seen := "";
    WindowStarts();
    while !Contains(head)
      invariant Window(seen, head) && seen + f.rest == old(f.rest)
      decreases |f.rest|
    {
      var chunk := f.Read(65536);
      if chunk == "" {
        WindowMisses(seen, head);
        assert seen == old(f.rest);
        return false, "";
      }
      WindowMoves(seen, head, chunk);
      assert seen + (chunk + f.rest) == (seen + chunk) + f.rest;
      head := Last(head, OVERLAP) + chunk;
      seen := seen + chunk;
    }
    WindowFinds(seen, head, f.rest);
    return true, head[IndexOf(head)..];
  }

  /** Streaming yields what reading the whole file at once would, whatever the reads return. */
  method IterEvents(f: TextFile) returns (events: seq<string>)
    modifies f
    ensures events == Events(old(f.rest))
  {
    events := [];
    var found, tail := Locate(f);
    if !found {
      return;
    }
    var s := START;
    ghost var text := tail + f.rest;
    ghost var done := "";
    assert text == done + tail + f.rest;
    while true
      invariant text == done + tail + f.rest
      invariant s == After(START, done) && events == Emitted(START, done)
      decreases |f.rest|
    {
      var more;
      s, more := ScanChunk(s, tail);
      ScanConcat(START, done, tail);
      events := events + more;
      done := done + tail;
      tail := f.Read(1048576);
      if tail == "" {
        assert text == done;
        return;
      }
      assert text == done + tail + f.rest;
    }
  }

  /** The character loop over one chunk. */
  method ScanChunk(s0: Scan, tail: string) returns (s: Scan, events: seq<string>)
    ensures s == After(s0, tail) && events == Emitted(s0, tail)
  {
    s, events := s0, [];
    for i := 0 to |tail|
      invariant s == After(s0, tail[..i]) && events == Emitted(s0, tail[..i])
    {
      assert tail[..i + 1] == tail[..i] + [tail[i]];
      ScanConcat(s0, tail[..i], [tail[i]]);
      OneCharacter(s, tail[i]);
      var (next, done) := Next(s, tail[i]);
      s, events := next, events + done;
    }
    assert tail[..|tail|] == tail;
  }

  lemma {:induction false} OneCharacter(s: Scan, c: char)
    ensures After(s, [c]) == Next(s, c).0 && Emitted(s, [c]) == Next(s, c).1
  {
    assert [c][1..] == "";
    assert After(Next(s, c).0, "") == Next(s, c).0;
    assert Emitted(Next(s, c).0, "") == [];
  }

  // ---- what the scanner makes of JSON text

  /** One character of a string literal, or a backslash with the character it escapes. */
  datatype Literal = Raw(c: char) | Escaped(c: char)

  /** Text with balanced braces outside its string literals: what any printed JSON value consists of. */
  datatype Piece = Other(c: char) | Quoted(literals: seq<Literal>) | Braced(pieces: seq<Piece>)

  predicate WellFormed(p: Piece) {
    match p
    case Other(c) => c != '\"' && c != '{' && c != '}'
    case Quoted(ls) => forall i :: 0 <= i < |ls| && ls[i].Raw? ==> ls[i].c != '\"' && ls[i].c != '\\'
    case Braced(ps) => forall i :: 0 <= i < |ps| ==> WellFormed(ps[i])
  }

  predicate AllWellFormed(ps: seq<Piece>) {
    forall i :: 0 <= i < |ps| ==> WellFormed(ps[i])
  }

  function PrintLiterals(ls: seq<Literal>): string {
    if ls == [] then "" else (if ls[0].Raw? then [ls[0].c] else ['\\', ls[0].c]) + PrintLiterals(ls[1..])
  }

  function Print(p: Piece): string
    decreases p, 0
  {
    match p
    case Other(c) => [c]
    case Quoted(ls) => "\"" + PrintLiterals(ls) + "\""
    case Braced(ps) => "{" + PrintAll(ps) + "}"
  }

  function PrintAll(ps: seq<Piece>): string
    decreases ps, 1
  {
    if ps == [] then "" else Print(ps[0]) + PrintAll(ps[1..])
  }

  /** The texts of the brace groups that are not inside another one, in order. */
  function Objects(ps: seq<Piece>): seq<string> {
    if ps == [] then [] else (if ps[0].Braced? then [Print(ps[0])] else []) + Objects(ps[1..])
  }

  function Grown(s: Scan, text: string): Scan {
    if s.started then s.(buf := s.buf + text) else s
  }

  lemma {:induction false} GrownTwice(s: Scan, a: string, b: string)
    ensures Grown(Grown(s, a), b) == Grown(s, a + b)
    ensures Grown(s, "") == s
  {
    assert s.buf + "" == s.buf;
    assert s.buf + a + b == s.buf + (a + b);
  }

  /** Scanning this text in this state only lengthens the buffer, if there is one. */
  ghost predicate Passes(s: Scan, text: string) {
    After(s, text) == Grown(s, text) && Emitted(s, text) == []
  }

  lemma {:induction false} PassesConcat(s: Scan, a: string, b: string)
    requires Passes(s, a) && Passes(Grown(s, a), b)
    ensures Passes(s, a + b)
  {
    ScanConcat(s, a, b);
    GrownTwice(s, a, b);
  }

  lemma {:induction false} PassesOne(s: Scan, c: char)
    requires Next(s, c) == (Grown(s, [c]), [])
    ensures Passes(s, [c])
  {
    OneCharacter(s, c);
  }

  lemma {:induction false} LiteralsPass(s: Scan, ls: seq<Literal>)
    requires s.inStr && !s.esc && WellFormed(Quoted(ls))
    ensures Passes(s, PrintLiterals(ls))
    decreases ls
  {
    GrownTwice(s, "", "");
    if ls != [] {
      var l := ls[0];
      if l.Raw? {
        PassesOne(s, l.c);
      } else {
        OneCharacter(s, '\\');
        OneCharacter(Next(s, '\\').0, l.c);
        assert ['\\', l.c] == ['\\'] + [l.c];
        ScanConcat(s, ['\\'], [l.c]);
        GrownTwice(s, ['\\'], [l.c]);
      }
      var first := if l.Raw? then [l.c] else ['\\', l.c];
      LiteralsPass(Grown(s, first), ls[1..]);
      PassesConcat(s, first, PrintLiterals(ls[1..]));
    }
  }

  /** A string literal passes, whatever braces, backslashes and escaped quotes it holds. */
  lemma {:induction false} QuotedPasses(s: Scan, ls: seq<Literal>)
    requires !s.inStr && !s.esc && WellFormed(Quoted(ls))
    ensures Passes(s, Print(Quoted(ls)))
  {
    var body := PrintLiterals(ls);
    var inside := Grown(s, "\"").(inStr := true);
    OneCharacter(s, '\"');
    LiteralsPass(inside, ls);
    OneCharacter(Grown(inside, body), '\"');
    ScanConcat(inside, body, "\"");
    ScanConcat(s, "\"", body + "\"");
    GrownTwice(s, "\"", body + "\"");
    GrownTwice(inside, body, "\"");
    assert Print(Quoted(ls)) == "\"" + (body + "\"");
  }

  lemma {:induction false} PiecePasses(s: Scan, p: Piece)
    requires !s.inStr && !s.esc && WellFormed(p)
    requires s.depth >= 1
    ensures Passes(s, Print(p))
    decreases p, 0
  {
    hide Passes, PrintAll;
    match p
    case Other(c) => PassesOne(s, c);
    case Quoted(ls) => QuotedPasses(s, ls);
    case Braced(ps) =>
      PiecesPass(Opened(s), ps);
      BracesPass(s, PrintAll(ps));
      assert Print(p) == "{" + (PrintAll(ps) + "}") by { BracedText(ps); }
  }

  function Opened(s: Scan): Scan {
    Grown(s, "{").(depth := s.depth + 1)
  }

  lemma {:induction false} BracedText(ps: seq<Piece>)
    ensures Print(Braced(ps)) == "{" + (PrintAll(ps) + "}")
  {
    hide PrintAll;
  }

  /** A text that passes inside braces passes with them. */
  lemma {:induction false} BracesPass(s: Scan, body: string)
    requires !s.inStr && !s.esc && s.depth >= 1 && Passes(Opened(s), body)
    ensures Passes(s, "{" + (body + "}"))
  {
    hide After, Emitted;
    var inside := Opened(s);
    OneCharacter(s, '{');
    OneCharacter(Grown(inside, body), '}');
    ScanConcat(inside, body, "}");
    ScanConcat(s, "{", body + "}");
    GrownTwice(s, "{", body + "}");
    GrownTwice(inside, body, "}");
  }

  lemma {:induction false} PiecesPass(s: Scan, ps: seq<Piece>)
    requires !s.inStr && !s.esc && s.depth >= 1 && AllWellFormed(ps)
    ensures Passes(s, PrintAll(ps))
    decreases ps, 1
  {
    GrownTwice(s, "", "");
    if ps != [] {
      PiecePasses(s, ps[0]);
      PiecesPass(Grown(s, Print(ps[0])), ps[1..]);
      PassesConcat(s, Print(ps[0]), PrintAll(ps[1..]));
    }
  }

  /** Between objects the scanner is idle: outside strings, at depth zero, with nothing started. */
  ghost predicate Idle(s: Scan) {
    !s.inStr && !s.esc && !s.started && s.depth == 0
  }

  lemma {:induction false} ObjectIsEmitted(s: Scan, ps: seq<Piece>)
    requires Idle(s) && AllWellFormed(ps)
    ensures Idle(After(s, Print(Braced(ps)))) && Emitted(s, Print(Braced(ps))) == [Print(Braced(ps))]
  {
    var body := PrintAll(ps);
    var inside := Scan("{", 1, false, false, true);
    OneCharacter(s, '{');
    assert "" + "{" == "{";
    PiecesPass(inside, ps);
    OneCharacter(Grown(inside, body), '}');
    ScanConcat(inside, body, "}");
    ScanConcat(s, "{", body + "}");
    assert Print(Braced(ps)) == "{" + (body + "}");
    assert "{" + body + ['}'] == "{" + (body + "}");
  }

  /** From an idle scanner, text yields exactly its outermost brace groups, verbatim and in order. */
  lemma {:induction false} ObjectsAreEmitted(s: Scan, ps: seq<Piece>)
    requires Idle(s) && AllWellFormed(ps)
    ensures Idle(After(s, PrintAll(ps))) && Emitted(s, PrintAll(ps)) == Objects(ps)
    decreases ps
  {
    if ps != [] {
      var p := ps[0];
      match p {
        case Other(c) => PassesOne(s, c);
        case Quoted(ls) => QuotedPasses(s, ls);
        case Braced(qs) => ObjectIsEmitted(s, qs);
      }
      ObjectsAreEmitted(After(s, Print(p)), ps[1..]);
      ScanConcat(s, Print(p), PrintAll(ps[1..]));
    }
  }

  function MarkerLiterals(word: string): (ls: seq<Literal>)
    ensures |ls| == |word| && forall i :: 0 <= i < |word| ==> ls[i] == Raw(word[i])
  {
    seq(|word|, i requires 0 <= i < |word| => Raw(word[i]))
  }

  lemma {:induction false} PrintMarker(word: string)
    ensures PrintLiterals(MarkerLiterals(word)) == word
  {
    if word != "" {
      PrintMarker(word[1..]);
      assert MarkerLiterals(word)[1..] == MarkerLiterals(word[1..]);
    }
  }

  /** After the outer object closes, text without brace groups yields nothing. */
  lemma {:induction false} TrailerIsSilent(s: Scan, ps: seq<Piece>)
    requires !s.inStr && !s.esc && !s.started && AllWellFormed(ps) && Objects(ps) == []
    ensures Emitted(s, PrintAll(ps)) == []
    decreases ps
  {
    if ps != [] {
      var p := ps[0];
      match p {
        case Other(c) => PassesOne(s, c);
        case Quoted(ls) => QuotedPasses(s, ls);
        case Braced(_) =>
      }
      TrailerIsSilent(After(s, Print(p)), ps[1..]);
      ScanConcat(s, Print(p), PrintAll(ps[1..]));
    }
  }

  lemma {:induction false} TailEvents(items: seq<Piece>, members: seq<Piece>, blank: seq<Piece>)
    requires AllWellFormed(items) && AllWellFormed(members) && AllWellFormed(blank) && Objects(blank) == []
    ensures Emitted(START, PrintAll(items) + (PrintAll(members) + ("}" + PrintAll(blank)))) == Objects(items)
              + Objects(members)
  {
    var tail := "}" + PrintAll(blank);
    ObjectsAreEmitted(START, items);
    var s := After(START, PrintAll(items));
    ScanConcat(START, PrintAll(items), PrintAll(members) + tail);
    ObjectsAreEmitted(s, members);
    var t := After(s, PrintAll(members));
    ScanConcat(s, PrintAll(members), tail);
    OneCharacter(t, '}');
    ScanConcat(t, "}", PrintAll(blank));
    TrailerIsSilent(Next(t, '}').0, blank);
  }

  lemma {:induction false} MarkerIsSilent(text: string)
    ensures Emitted(START, MARKER + text) == Emitted(START, text)
  {
    hide MarkerLiterals, PrintLiterals, After, Emitted;
    var ls := MarkerLiterals("traceEvents");
    PrintMarker("traceEvents");
    assert Print(Quoted(ls)) == MARKER;
    QuotedPasses(START, ls);
    ScanConcat(START, MARKER, text);
  }

  /**
   A trace file: anything before the marker, the marker, the array, the members after it, the
   closing brace of the document, and blank text.
   */
  function Document(prefix: string, items: seq<Piece>, members: seq<Piece>, blank: seq<Piece>): string {
    prefix + (MARKER + (PrintAll(items) + (PrintAll(members) + ("}" + PrintAll(blank)))))
  }

  ghost predicate IsTrace(prefix: string, items: seq<Piece>, members: seq<Piece>, blank: seq<Piece>) {
    && AllWellFormed(items) && AllWellFormed(members) && AllWellFormed(blank) && Objects(blank) == []
    && forall i: nat :: i < |prefix| ==> !OccursAt(Document(prefix, items, members, blank), i)
  }

  /** The events are the outermost objects of the array and of what follows it, in order. */
  lemma {:induction false} DocumentEvents(prefix: string, items: seq<Piece>, members: seq<Piece>, blank: seq<Piece>)
    requires IsTrace(prefix, items, members, blank)
    ensures Events(Document(prefix, items, members, blank)) == Objects(items) + Objects(members)
  {
    var text := Document(prefix, items, members, blank);
    var tail := PrintAll(items) + (PrintAll(members) + ("}" + PrintAll(blank)));
    assert text[|prefix|..] == MARKER + tail;
    assert text[|prefix|..|prefix| + |MARKER|] == MARKER;
    FirstIsIndex(text, |prefix|);
    MarkerIsSilent(tail);
    TailEvents(items, members, blank);
  }

  /** Exactly the array's objects are yielded if and only if no later member holds an object. */
  lemma {:induction false} OnlyTheArray(prefix: string, items: seq<Piece>, members: seq<Piece>, blank: seq<Piece>)
    requires IsTrace(prefix, items, members, blank)
    ensures Events(Document(prefix, items, members, blank)) == Objects(items) <==>
            forall i :: 0 <= i < |members| ==> !members[i].Braced?
  {
    DocumentEvents(prefix, items, members, blank);
    NoObjects(members);
    assert |Objects(items) + Objects(members)| == |Objects(items)| + |Objects(members)|;
  }

  lemma {:induction false} NoObjects(ps: seq<Piece>)
    ensures Objects(ps) == [] <==> forall i :: 0 <= i < |ps| ==> !ps[i].Braced?
  {
    if ps != [] {
      NoObjects(ps[1..]);
    }
  }

  // ---- the array as it is printed

  predicate IsBlank(gap: seq<Piece>) {
    forall i :: 0 <= i < |gap| ==> gap[i].Other? && gap[i].c in " \t\n\r"
  }

  /** One object of the array, with the white space around it. */
  datatype Element = Element(before: seq<Piece>, members: seq<Piece>, behind: seq<Piece>)

  function Elements(es: seq<Element>): seq<Piece> {
    if es == [] then []
    else es[0].before + ([Braced(es[0].members)]
                         + (es[0].behind + ((if |es| == 1 then [] else [Other(',')]) + Elements(es[1..]))))
  }

  /**
   A colon, and the objects in brackets, separated by commas; `inner` is what white space stands before the
   last bracket.
   */
  function ArrayPieces(colon: seq<Piece>, open: seq<Piece>, es: seq<Element>, inner: seq<Piece>): seq<Piece> {
    colon + ([Other(':')] + (open + ([Other('[')] + (Elements(es) + (inner + [Other(']')])))))
  }

  ghost predicate AllBlank(colon: seq<Piece>, open: seq<Piece>, es: seq<Element>, inner: seq<Piece>) {
    && IsBlank(colon) && IsBlank(open) && IsBlank(inner)
    && forall i :: 0 <= i < |es| ==> IsBlank(es[i].before) && IsBlank(es[i].behind)
  }

  function ObjectTexts(es: seq<Element>): (texts: seq<string>)
    ensures |texts| == |es| && forall i :: 0 <= i < |es| ==> texts[i] == Print(Braced(es[i].members))
  {
    seq(|es|, i requires 0 <= i < |es| => Print(Braced(es[i].members)))
  }

  lemma {:induction false} ObjectsConcat(a: seq<Piece>, b: seq<Piece>)
    ensures Objects(a + b) == Objects(a) + Objects(b)
  {
    if a == [] {
      assert a + b == b;
    } else {
      assert (a + b)[1..] == a[1..] + b;
      ObjectsConcat(a[1..], b);
    }
  }

  lemma {:induction false} SkipQuiet(a: seq<Piece>, b: seq<Piece>)
    requires forall i :: 0 <= i < |a| ==> a[i].Other?
    ensures Objects(a + b) == Objects(b)
  {
    NoObjects(a);
    ObjectsConcat(a, b);
  }

  lemma {:induction false} ElementObjects(es: seq<Element>)
    requires forall i :: 0 <= i < |es| ==> IsBlank(es[i].before) && IsBlank(es[i].behind)
    ensures Objects(Elements(es)) == ObjectTexts(es)
  {
    if es != [] {
      var e, printed := es[0], [Braced(es[0].members)];
      var comma: seq<Piece> := if |es| == 1 then [] else [Other(',')];
      var rest := Elements(es[1..]);
      ElementObjects(es[1..]);
      SkipQuiet(comma, rest);
      SkipQuiet(e.behind, comma + rest);
      ObjectsConcat(printed, e.behind + (comma + rest));
      OneObject(es[0].members);
      SkipQuiet(e.before, printed + (e.behind + (comma + rest)));
      assert ObjectTexts(es) == [Print(Braced(e.members))] + ObjectTexts(es[1..]);
    }
  }

  lemma {:induction false} OneObject(members: seq<Piece>)
    ensures Objects([Braced(members)]) == [Print(Braced(members))]
  {
    assert [Braced(members)][1..] == [];
  }

  lemma {:induction false} ArrayObjects(colon: seq<Piece>, open: seq<Piece>, es: seq<Element>, inner: seq<Piece>)
    requires AllBlank(colon, open, es, inner)
    ensures Objects(ArrayPieces(colon, open, es, inner)) == ObjectTexts(es)
  {
    var end := inner + [Other(']')];
    var body := Elements(es) + end;
    ElementObjects(es);
    ObjectsConcat(Elements(es), end);
    NoObjects(end);
    SkipQuiet([Other('[')], body);
    SkipQuiet(open, [Other('[')] + body);
    SkipQuiet([Other(':')], open + ([Other('[')] + body));
    SkipQuiet(colon, [Other(':')] + (open + ([Other('[')] + body)));
  }

  /**
   For a printed array of objects the stream yields exactly those objects' texts, in order, and then the objects
   of later members; so it yields the array alone if and only if no later member holds an object.
   */
  lemma {:induction false} ArrayEvents(prefix: string, colon: seq<Piece>, open: seq<Piece>, es: seq<Element>,
                                       inner: seq<Piece>,
                                       members: seq<Piece>, blank: seq<Piece>)
    requires AllBlank(colon, open, es, inner) && IsTrace(prefix, ArrayPieces(colon, open, es, inner), members, blank)
    ensures var events := Events(Document(prefix, ArrayPieces(colon, open, es, inner), members, blank));
            && events == ObjectTexts(es) + Objects(members)
            && (events == ObjectTexts(es) <==> forall i :: 0 <= i < |members| ==> !members[i].Braced?)
  {
    hide ArrayPieces, Document, Events;
    ArrayObjects(colon, open, es, inner);
    DocumentEvents(prefix, ArrayPieces(colon, open, es, inner), members, blank);
    OnlyTheArray(prefix, ArrayPieces(colon, open, es, inner), members, blank);
  }
}
