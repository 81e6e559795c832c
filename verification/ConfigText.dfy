/** Rendering the HAProxy configuration and reading its servers back
    (pkg/controller/haproxy_controller.go).

    The template is the fixed global and defaults sections followed by the frontend
    and the backend section modelled here. The text of a weight is the work of Go's
    float printer, which is a parameter. */
module ConfigText {
  import opened KanaryTypes
  import opened HAProxy
  import opened Float32

  type WeightPrinter = real -> string

  /** What the template leaves between two servers: a line break, a tab, two blanks. */
  const INDENT := "\n\t  "
  const FRONT := "frontend in"
  const BIND := "      bind :80"
  const DEFAULT := "      default_backend kanary"
  const FRONTEND := FRONT + "\n" + BIND + "\n" + DEFAULT + "\n" + "\n" + "    "
  const SECTION := "backend kanary"

  function ServerText(printer: WeightPrinter, b: HAConfigBackend): string {
    "server " + b.name + " " + b.ip + " weight " + printer(b.weight)
  }

  /** The text after the section line; `-}}` has trimmed the blanks before "server". */
  function ServersText(printer: WeightPrinter, bs: seq<HAConfigBackend>): string {
    if bs == [] then "" else ServerText(printer, bs[0]) + INDENT + ServersText(printer, bs[1..])
  }

  function Render(printer: WeightPrinter, bs: seq<HAConfigBackend>): string {
    FRONTEND + SECTION + INDENT + ServersText(printer, bs)
  }

  method GenerateConfig(printer: WeightPrinter, endpoints: seq<HAConfigBackend>) returns (text: string)
    ensures text == Render(printer, endpoints)
  {
    text := FRONTEND + SECTION + INDENT;
    ghost var remaining := ServersText(printer, endpoints);
    assert endpoints[0..] == endpoints;
    for i := 0 to |endpoints|
      invariant remaining == ServersText(printer, endpoints[i..])
      invariant text + remaining == Render(printer, endpoints)
    {
      ghost var later := ServersText(printer, endpoints[i + 1..]);
      assert endpoints[i..][0] == endpoints[i] && endpoints[i..][1..] == endpoints[i + 1..];
      assert remaining == ServerText(printer, endpoints[i]) + INDENT + later;
      ghost var before := text;
      text := text + "server " + endpoints[i].name + " " + endpoints[i].ip + " weight " + printer(endpoints[i].weight);
      assert text == before + ServerText(printer, endpoints[i]);
      text := text + INDENT;
      assert text + later == before + remaining;
      remaining := later;
    }
    assert text + "" == text;
  }

  // ---------- reading the servers back ----------

  predicate IsSpace(c: char) {
    c == ' ' || c == '\t' || c == '\n'
  }

  /** A non-empty text without white space, as HAProxy's configuration words are. */
  predicate IsWord(s: string) {
    s != "" && forall i :: 0 <= i < |s| ==> !IsSpace(s[i])
  }

  function WordLength(s: string): (n: nat)
    ensures n <= |s|
    ensures s != "" && !IsSpace(s[0]) ==> n > 0
  {
    if s == "" || IsSpace(s[0]) then 0 else 1 + WordLength(s[1..])
  }

  /** The maximal words of s. */
  function Words(s: string): seq<string>
    decreases |s|
  {
    if s == "" then []
    else if IsSpace(s[0]) then Words(s[1..])
    else [s[..WordLength(s)]] + Words(s[WordLength(s)..])
  }

  /** The lines of s; there is always at least one. */
  function Lines(s: string): (r: seq<string>)
    ensures r != []
  {
    if s == "" then [""]
    else
      var rest := Lines(s[1..]);
      if s[0] == '\n' then [""] + rest else [[s[0]] + rest[0]] + rest[1..]
  }

  /** A section of a configuration: the words of its heading and of its other lines. */
  datatype Section = Section(heading: seq<string>, lines: seq<seq<string>>)

  predicate IsHeading(words: seq<string>) {
    words != [] && words[0] in {"global", "defaults", "frontend", "backend", "listen"}
  }

  /** What comes before the first heading, and the sections; empty lines do not matter. */
  function Sections(lines: seq<string>): (seq<seq<string>>, seq<Section>) {
    if lines == [] then ([], [])
    else
      var words, (loose, rest) := Words(lines[0]), Sections(lines[1..]);
      if words == [] then (loose, rest)
      else if IsHeading(words) then ([], [Section(words, loose)] + rest)
      else ([words] + loose, rest)
  }

  function Parse(text: string): seq<Section> {
    Sections(Lines(text)).1
  }

  datatype Server = Server(name: string, ip: string, weightText: string)

  /** The servers that the lines of a section declare. */
  function ServersOfLines(lines: seq<seq<string>>): seq<Server> {
    if lines == [] then []
    else
      var w, rest := lines[0], ServersOfLines(lines[1..]);
      if |w| == 5 && w[0] == "server" && w[3] == "weight" then [Server(w[1], w[2], w[4])] + rest else rest
  }

  /** The servers of the backend of that name. */
  function ServersIn(sections: seq<Section>, backend: string): seq<Server> {
    if sections == [] then []
    else
      (if sections[0].heading == ["backend", backend] then ServersOfLines(sections[0].lines) else [])
      + ServersIn(sections[1..], backend)
  }

  /** The backends that the lines of a frontend name as default. */
  function Defaults(lines: seq<seq<string>>): seq<string> {
    if lines == [] then []
    else
      (if |lines[0]| == 2 && lines[0][0] == "default_backend" then [lines[0][1]] else []) + Defaults(lines[1..])
  }

  /** The default backends of the frontends that listen at the address. */
  function Targets(sections: seq<Section>, address: string): seq<string> {
    if sections == [] then []
    else
      var s := sections[0];
      (if s.heading != [] && s.heading[0] == "frontend" && ["bind", address] in s.lines then Defaults(s.lines) else [])
      + Targets(sections[1..], address)
  }

  function ServersOfAll(sections: seq<Section>, backends: seq<string>): seq<Server> {
    if backends == [] then [] else ServersIn(sections, backends[0]) + ServersOfAll(sections, backends[1..])
  }

  /** The servers that traffic to the address reaches. */
  function Reached(text: string, address: string): seq<Server> {
    ServersOfAll(Parse(text), Targets(Parse(text), address))
  }

  // ---------- the round trip ----------

  function ServerOf(printer: WeightPrinter, b: HAConfigBackend): Server {
    Server(b.name, b.ip, printer(b.weight))
  }

  function ServersOf(printer: WeightPrinter, bs: seq<HAConfigBackend>): (r: seq<Server>)
    ensures |r| == |bs| && forall i :: 0 <= i < |bs| ==> r[i] == ServerOf(printer, bs[i])
  {
    seq(|bs|, i requires 0 <= i < |bs| => ServerOf(printer, bs[i]))
  }

  ghost predicate Printable(printer: WeightPrinter, bs: seq<HAConfigBackend>) {
    forall i :: 0 <= i < |bs| ==> IsWord(bs[i].name) && IsWord(bs[i].ip) && IsWord(printer(bs[i].weight))
  }

  lemma {:induction false} WordLengthOfWord(w: string, rest: string)
    requires IsWord(w) && (rest == "" || IsSpace(rest[0]))
    ensures WordLength(w + rest) == |w|
  {
    assert (w + rest)[1..] == w[1..] + rest;
    if |w| > 1 {
      WordLengthOfWord(w[1..], rest);
    } else {
      assert w[1..] + rest == rest;
    }
  }

  lemma FirstWord(w: string, rest: string)
    requires IsWord(w) && (rest == "" || IsSpace(rest[0]))
    ensures Words(w + rest) == [w] + Words(rest)
  {
    WordLengthOfWord(w, rest);
    assert (w + rest)[..|w|] == w && (w + rest)[|w|..] == rest;
  }

  lemma SkipBlank(c: char, s: string)
    requires IsSpace(c)
    ensures Words([c] + s) == Words(s)
  {
    assert ([c] + s)[1..] == s;
  }

  lemma {:induction false} Indented(blanks: string, s: string)
    requires forall i :: 0 <= i < |blanks| ==> IsSpace(blanks[i])
    ensures Words(blanks + s) == Words(s)
  {
    if blanks == "" {
      assert blanks + s == s;
    } else {
      Indented(blanks[1..], s);
      SkipBlank(blanks[0], blanks[1..] + s);
      assert [blanks[0]] + (blanks[1..] + s) == blanks + s;
    }
  }

  lemma TwoWords(blanks: string, a: string, b: string)
    requires forall i :: 0 <= i < |blanks| ==> IsSpace(blanks[i])
    requires IsWord(a) && IsWord(b)
    ensures Words(blanks + a + " " + b) == [a, b]
  {
    hide Words, WordLength;
    NoWords();
    NextWord(b, "");
    FirstWord(a, " " + b + "");
    Indented(blanks, a + (" " + b + ""));
    assert blanks + a + " " + b == blanks + (a + (" " + b + ""));
  }

  lemma NextWord(w: string, rest: string)
    requires IsWord(w) && (rest == "" || IsSpace(rest[0]))
    ensures Words(" " + w + rest) == [w] + Words(rest)
  {
    SkipBlank(' ', w + rest);
    assert " " + w + rest == [' '] + (w + rest);
    FirstWord(w, rest);
  }

  lemma NoWords()
    ensures Words("") == []
  {
  }

  lemma ServerTextWords(printer: WeightPrinter, b: HAConfigBackend)
    requires IsWord(b.name) && IsWord(b.ip) && IsWord(printer(b.weight))
    ensures Words(ServerText(printer, b)) == ["server", b.name, b.ip, "weight", printer(b.weight)]
  {
    hide Words, WordLength;
    var t4 := " " + printer(b.weight) + "";
    var t3 := " " + "weight" + t4;
    var t2 := " " + b.ip + t3;
    var t1 := " " + b.name + t2;
    NoWords();
    NextWord(printer(b.weight), "");
    NextWord("weight", t4);
    NextWord(b.ip, t3);
    NextWord(b.name, t2);
    FirstWord("server", t1);
    assert ServerText(printer, b) == "server" + t1;
  }

  lemma {:induction false} LinesJoin(a: string, b: string)
    requires '\n' !in a
    ensures Lines(a + "\n" + b) == [a] + Lines(b)
  {
    var s := a + "\n" + b;
    if a == "" {
      assert s[1..] == b;
    } else {
      assert s[1..] == a[1..] + "\n" + b;
      LinesJoin(a[1..], b);
      assert [a[0]] + a[1..] == a;
    }
  }

  lemma {:induction false} OneLine(a: string)
    requires '\n' !in a
    ensures Lines(a) == [a]
  {
    if a == "" {
    } else {
      OneLine(a[1..]);
      assert [a[0]] + a[1..] == a;
    }
  }

  lemma IndentedServer(printer: WeightPrinter, b: HAConfigBackend)
    requires IsWord(b.name) && IsWord(b.ip) && IsWord(printer(b.weight))
    ensures '\n' !in "\t  " + ServerText(printer, b)
    ensures Words("\t  " + ServerText(printer, b)) == ServerWords(printer, b)
  {
    hide Words, WordLength;
    Indented("\t  ", ServerText(printer, b));
    ServerTextWords(printer, b);
  }

  /** The words of a server's line. */
  function ServerWords(printer: WeightPrinter, b: HAConfigBackend): seq<string> {
    ["server", b.name, b.ip, "weight", printer(b.weight)]
  }

  function ServerLines(printer: WeightPrinter, bs: seq<HAConfigBackend>): seq<seq<string>> {
    if bs == [] then [] else [ServerWords(printer, bs[0])] + ServerLines(printer, bs[1..])
  }

  lemma {:induction false} ServersOfServerLines(printer: WeightPrinter, bs: seq<HAConfigBackend>)
    ensures ServersOfLines(ServerLines(printer, bs)) == ServersOf(printer, bs)
  {
    if bs == [] {
    } else {
      ServersOfServerLines(printer, bs[1..]);
      var rest := ServerLines(printer, bs[1..]);
      assert ServerLines(printer, bs)[1..] == rest;
      assert ServersOf(printer, bs) == [ServerOf(printer, bs[0])] + ServersOf(printer, bs[1..]);
    }
  }

  /** The indentation after the last server is a line without words. */
  lemma BlankLine(blanks: string)
    requires forall i :: 0 <= i < |blanks| ==> IsSpace(blanks[i])
    ensures Words(blanks) == []
  {
    hide Words, WordLength;
    NoWords();
    Indented(blanks, "");
    assert blanks + "" == blanks;
  }

  lemma FirstServerLine(printer: WeightPrinter, bs: seq<HAConfigBackend>)
    requires bs != []
    ensures "\t  " + ServersText(printer, bs)
         == ("\t  " + ServerText(printer, bs[0])) + "\n" + ("\t  " + ServersText(printer, bs[1..]))
  {
    var t, later := ServerText(printer, bs[0]), ServersText(printer, bs[1..]);
    hide ServerText;
    assert INDENT == "\n" + "\t  ";
    Regroup("\t  ", t, "\n", later);
  }

  lemma Regroup(indent: string, line: string, end: string, later: string)
    ensures indent + (line + (end + indent) + later) == (indent + line) + end + (indent + later)
  {
  }

  lemma NextLine(line: string, rest: seq<string>)
    ensures var words, (loose, later) := Words(line), Sections(rest);
            Sections([line] + rest)
            == if words == [] then (loose, later)
               else if IsHeading(words) then ([], [Section(words, loose)] + later) else ([words] + loose, later)
  {
    hide Words;
    assert ([line] + rest)[1..] == rest;
  }

  lemma NoServersText(printer: WeightPrinter)
    ensures ServersText(printer, []) == ""
  {
  }

  lemma NotAHeading(printer: WeightPrinter, b: HAConfigBackend)
    ensures !IsHeading(ServerWords(printer, b)) && ServerWords(printer, b) != []
  {
    assert "server"[0] == 's';
    assert "global"[0] != 's' && "defaults"[0] != 's' && "frontend"[0] != 's' && "backend"[0] != 's' && "listen"[0] != 's';
  }

  lemma {:induction false} ParseServers(printer: WeightPrinter, bs: seq<HAConfigBackend>)
    requires Printable(printer, bs)
    ensures Sections(Lines("\t  " + ServersText(printer, bs))) == (ServerLines(printer, bs), [])
  {
    hide Words, WordLength, Lines, ServerText, Sections, IsWord, ServersText, IsHeading, ServerWords;
    if bs == [] {
      assert ServersText(printer, bs) == "" by { NoServersText(printer); }
      assert "\t  " + "" == "\t  ";
      OneLine("\t  ");
      BlankLine("\t  ");
      LastLine("\t  ");
    } else {
      var line := "\t  " + ServerText(printer, bs[0]);
      var later := "\t  " + ServersText(printer, bs[1..]);
      FirstServerLine(printer, bs);
      IndentedServer(printer, bs[0]);
      NotAHeading(printer, bs[0]);
      LinesJoin(line, later);
      NextLine(line, Lines(later));
      ParseServers(printer, bs[1..]);
    }
  }

  lemma LastLine(line: string)
    requires Words(line) == []
    ensures Sections([line]) == ([], [])
  {
    hide Words;
    assert [line][1..] == [];
  }

  const FRONT_LINES := [["bind", ":80"], ["default_backend", "kanary"]]

  lemma SectionLine(rest: string)
    ensures Sections(Lines("    " + SECTION + "\n" + rest))
         == ([], [Section(["backend", "kanary"], Sections(Lines(rest)).0)] + Sections(Lines(rest)).1)
  {
    hide Words, WordLength, Lines, Sections;
    TwoWords("    ", "backend", "kanary");
    assert "    " + SECTION == "    " + "backend" + " " + "kanary";
    LinesJoin("    " + SECTION, rest);
    NextLine("    " + SECTION, Lines(rest));
  }

  lemma FrontLine(line: string, blanks: string, a: string, b: string, rest: string)
    requires line == blanks + a + " " + b && forall i :: 0 <= i < |blanks| ==> blanks[i] == ' '
    requires IsWord(a) && IsWord(b)
    ensures var (loose, later) := Sections(Lines(rest));
            Sections(Lines(line + "\n" + rest))
            == if IsHeading([a, b]) then ([], [Section([a, b], loose)] + later) else ([[a, b]] + loose, later)
  {
    hide Words, WordLength, Lines, Sections;
    TwoWords(blanks, a, b);
    assert '\n' !in line;
    LinesJoin(line, rest);
    NextLine(line, Lines(rest));
  }

  lemma EmptyLine(rest: string)
    ensures Sections(Lines("\n" + rest)) == Sections(Lines(rest))
  {
    hide Words, WordLength, Lines, Sections;
    LinesJoin("", rest);
    assert "" + "\n" + rest == "\n" + rest;
    NoWords();
    NextLine("", Lines(rest));
  }

  lemma FrontendLines(rest: string)
    ensures Sections(Lines(FRONTEND + rest))
         == var (loose, sections) := Sections(Lines("    " + rest));
            ([], [Section(["frontend", "in"], FRONT_LINES + loose)] + sections)
  {
    var later := "    " + rest;
    var third := DEFAULT + "\n" + ("\n" + later);
    hide Words, WordLength, Lines, Sections, IsHeading;
    EmptyLine(later);
    FrontLine(DEFAULT, "      ", "default_backend", "kanary", "\n" + later);
    FrontLine(BIND, "      ", "bind", ":80", third);
    FrontLine(FRONT, "", "frontend", "in", BIND + "\n" + third);
    OrdinaryLines();
    Unfolded(FRONT, BIND, DEFAULT, "\n", "    ", rest);
    var loose := Sections(Lines(later)).0;
    assert [["bind", ":80"]] + ([["default_backend", "kanary"]] + loose) == FRONT_LINES + loose;
  }

  lemma Unfolded(a: string, b: string, c: string, end: string, indent: string, rest: string)
    ensures a + end + b + end + c + end + end + indent + rest == a + end + (b + end + (c + end + (end + (indent + rest))))
  {
  }

  lemma OrdinaryLines()
    ensures !IsHeading(["bind", ":80"]) && !IsHeading(["default_backend", "kanary"]) && IsHeading(["frontend", "in"])
  {
    assert |"bind"| == 4 && |"default_backend"| == 15;
    assert |"global"| == 6 && |"defaults"| == 8 && |"frontend"| == 8 && |"backend"| == 7 && |"listen"| == 6;
  }

  lemma RenderSections(printer: WeightPrinter, bs: seq<HAConfigBackend>)
    requires Printable(printer, bs)
    ensures Parse(Render(printer, bs))
         == [Section(["frontend", "in"], FRONT_LINES), Section(["backend", "kanary"], ServerLines(printer, bs))]
  {
    hide Words, WordLength, Lines, Sections, ServersText, ServerLines;
    var later := "\t  " + ServersText(printer, bs);
    var back := SECTION + "\n" + later;
    assert Render(printer, bs) == FRONTEND + back;
    assert "    " + back == "    " + SECTION + "\n" + later;
    ParseServers(printer, bs);
    SectionLine(later);
    FrontendLines(back);
    assert FRONT_LINES + [] == FRONT_LINES;
  }

  /** A rendered configuration, read section by section: the frontend listens at port 80
      and nowhere else, its default is the backend kanary, that backend has exactly the
      servers, in order, and no other backend has any. So these are the servers that
      traffic to port 80 reaches. */
  lemma ParseRender(printer: WeightPrinter, bs: seq<HAConfigBackend>)
    requires Printable(printer, bs)
    ensures var sections := Parse(Render(printer, bs));
            && Targets(sections, ":80") == ["kanary"] && (forall a :: a != ":80" ==> Targets(sections, a) == [])
            && ServersIn(sections, "kanary") == ServersOf(printer, bs)
            && (forall name :: name != "kanary" ==> ServersIn(sections, name) == [])
    ensures Reached(Render(printer, bs), ":80") == ServersOf(printer, bs)
  {
    RenderSections(printer, bs);
    ServersOfServerLines(printer, bs);
    hide Parse, Render, ServersOf, ServerLines;
    ReadTwoSections(ServerLines(printer, bs));
  }

  /** The lines for the servers, and the one their last indentation leaves. */
  function ServerTexts(printer: WeightPrinter, bs: seq<HAConfigBackend>): seq<string> {
    if bs == [] then ["\t  "]
    else
      ["\t  server " + bs[0].name + " " + bs[0].ip + " weight " + printer(bs[0].weight)] + ServerTexts(printer, bs[1..])
  }

  lemma {:induction false} ServersTextLines(printer: WeightPrinter, bs: seq<HAConfigBackend>)
    requires Printable(printer, bs)
    ensures Lines("\t  " + ServersText(printer, bs)) == ServerTexts(printer, bs)
  {
    hide Words, WordLength, Lines, IsWord, ServersText;
    if bs == [] {
      assert ServersText(printer, bs) == "" by { NoServersText(printer); }
      assert "\t  " + "" == "\t  ";
      OneLine("\t  ");
    } else {
      var line := "\t  " + ServerText(printer, bs[0]);
      FirstServerLine(printer, bs);
      IndentedServer(printer, bs[0]);
      LinesJoin(line, "\t  " + ServersText(printer, bs[1..]));
      ServersTextLines(printer, bs[1..]);
      assert "\t  " + "server " == "\t  server ";
      assert line == "\t  server " + bs[0].name + " " + bs[0].ip + " weight " + printer(bs[0].weight);
    }
  }

  /** The text line by line, with all its blanks. */
  lemma RenderLines(printer: WeightPrinter, bs: seq<HAConfigBackend>)
    requires Printable(printer, bs)
    ensures Lines(Render(printer, bs))
         == ["frontend in", "      bind :80", "      default_backend kanary", "", "    backend kanary"]
            + ServerTexts(printer, bs)
  {
    hide Words, WordLength, Lines, ServersText, ServerTexts, IsWord;
    var servers := "\t  " + ServersText(printer, bs);
    var back := "    " + SECTION + "\n" + servers;
    assert Render(printer, bs) == FRONTEND + (SECTION + "\n" + servers);
    assert back == "    " + (SECTION + "\n" + servers);
    Unfolded(FRONT, BIND, DEFAULT, "\n", "    ", SECTION + "\n" + servers);
    assert "    " + SECTION == "    backend kanary";
    ServersTextLines(printer, bs);
    LinesJoin("    " + SECTION, servers);
    LinesJoin("", back);
    assert "" + "\n" + back == "\n" + back;
    NoBreaks();
    LinesJoin(DEFAULT, "\n" + back);
    LinesJoin(BIND, DEFAULT + "\n" + ("\n" + back));
    LinesJoin(FRONT, BIND + "\n" + (DEFAULT + "\n" + ("\n" + back)));
  }

  lemma NoBreaks()
    ensures '\n' !in FRONT && '\n' !in BIND && '\n' !in DEFAULT && '\n' !in "    " + SECTION
  {
  }

  lemma NextSection(s: Section, rest: seq<Section>)
    ensures forall name :: ServersIn([s] + rest, name)
                           == (if s.heading == ["backend", name] then ServersOfLines(s.lines) else []) + ServersIn(rest, name)
    ensures forall a :: Targets([s] + rest, a)
                        == (if s.heading != [] && s.heading[0] == "frontend" && ["bind", a] in s.lines then Defaults(s.lines)
                            else []) + Targets(rest, a)
  {
    assert ([s] + rest)[1..] == rest;
  }

  lemma FrontTargets(a: string)
    ensures ["bind", a] in FRONT_LINES <==> a == ":80"
    ensures Defaults(FRONT_LINES) == ["kanary"]
  {
    assert "bind"[0] != "default_backend"[0];
    assert FRONT_LINES[1..] == [FRONT_LINES[1]] && FRONT_LINES[1..][1..] == [];
    assert a == ":80" ==> FRONT_LINES[0] == ["bind", a];
    assert Defaults(FRONT_LINES[1..]) == ["kanary"];
    if ["bind", a] in FRONT_LINES {
      var i :| 0 <= i < 2 && FRONT_LINES[i] == ["bind", a];
      assert FRONT_LINES[i][0] == "bind" && FRONT_LINES[i][1] == a;
    }
  }

  lemma ReadTwoSections(lines: seq<seq<string>>)
    ensures var sections := [Section(["frontend", "in"], FRONT_LINES), Section(["backend", "kanary"], lines)];
            && Targets(sections, ":80") == ["kanary"] && (forall a :: a != ":80" ==> Targets(sections, a) == [])
            && ServersIn(sections, "kanary") == ServersOfLines(lines)
            && (forall name :: name != "kanary" ==> ServersIn(sections, name) == [])
            && ServersOfAll(sections, ["kanary"]) == ServersOfLines(lines)
  {
    var front, back := Section(["frontend", "in"], FRONT_LINES), Section(["backend", "kanary"], lines);
    assert [front, back] == [front] + ([back] + []);
    assert Targets([], "") == [] && ServersIn([], "") == [];
    NextSection(back, []);
    NextSection(front, [back] + []);
    assert "frontend"[0] == 'f' && "backend"[0] == 'b';
    assert front.heading[0] != back.heading[0];
    forall a ensures Targets([front, back], a) == if a == ":80" then ["kanary"] else [] {
      FrontTargets(a);
    }
    forall name ensures ServersIn([front, back], name) == if name == "kanary" then ServersOfLines(lines) else [] {
      assert ["backend", name][1] == name && back.heading[1] == "kanary";
      assert ["backend", name][0] == "backend";
    }
    OneBackend([front, back], "kanary");
  }

  lemma OneBackend(sections: seq<Section>, name: string)
    ensures ServersOfAll(sections, [name]) == ServersIn(sections, name)
  {
    assert [name][1..] == [];
    assert ServersOfAll(sections, []) == [];
  }

  /** With a weight printer that distinguishes the weights in use, the text of a
      configuration determines its servers. */
  lemma RenderInjective(printer: WeightPrinter, a: seq<HAConfigBackend>, b: seq<HAConfigBackend>)
    requires Printable(printer, a) && Printable(printer, b)
    requires forall i, j :: 0 <= i < |a| && 0 <= j < |b| && printer(a[i].weight) == printer(b[j].weight)
                            ==> a[i].weight == b[j].weight
    ensures Render(printer, a) == Render(printer, b) <==> a == b
  {
    if Render(printer, a) == Render(printer, b) {
      hide Render, Reached, Parse;
      ParseRender(printer, a);
      ParseRender(printer, b);
      assert |ServersOf(printer, a)| == |ServersOf(printer, b)|;
      forall i | 0 <= i < |a| ensures a[i] == b[i] {
        assert ServersOf(printer, a)[i] == ServersOf(printer, b)[i];
      }
    }
  }

  /** Service names and addresses contain no white space. */
  ghost predicate WordStatus(es: seq<KanaryEndpointList>) {
    forall e, ip :: e in es && ip in e.ips ==> IsWord(e.serviceName) && IsWord(ip)
  }

  ghost predicate PrintsWords(printer: WeightPrinter) {
    forall w: real :: IsWord(printer(w))
  }

  /** Traffic to port 80 reaches a server for address ip of e's service, with e's weight
      divided by some number of addresses. */
  ghost predicate AddressReached(printer: WeightPrinter, text: string, e: KanaryEndpointList, ip: string) {
    exists m: nat, n: nat ::
      Server(ServerName(e.serviceName, m), ip, printer(FloatShare(e.weight, n))) in Reached(text, ":80")
  }

  /** What the recorded status serves is reached. */
  lemma ServedIsReached(printer: WeightPrinter, recorded: seq<KanaryEndpointList>, e: KanaryEndpointList, ip: string)
    requires WordStatus(recorded) && PrintsWords(printer) && AddressServed(FloatShare, recorded, e, ip)
    ensures AddressReached(printer, Render(printer, Backends(FloatShare, recorded)), e, ip)
  {
    hide Render, Backends, Reached, FloatShare, ServerName, WordStatus, PrintsWords, Parse, ServersIn;
    StatusReadsBack(printer, FloatShare, recorded);
    var bs := Backends(FloatShare, recorded);
    var j: nat, m: nat :| j < |recorded| && m < |recorded[j].ips| && recorded[j].ips[m] == ip
      && HAConfigBackend(ServerName(e.serviceName, m), FloatShare(e.weight, |recorded[j].ips|), ip) in bs;
    var b := HAConfigBackend(ServerName(e.serviceName, m), FloatShare(e.weight, |recorded[j].ips|), ip);
    var i :| 0 <= i < |bs| && bs[i] == b;
    assert ServersOf(printer, bs)[i] == ServerOf(printer, b);
    assert ServerOf(printer, b) in Reached(Render(printer, bs), ":80");
  }

  /** The servers generated from an endpoint status are printable, so reading the
      rendered configuration of a status gives one server for each of its addresses, all
      of them where traffic to port 80 goes, and none elsewhere. */
  lemma StatusReadsBack(printer: WeightPrinter, share: Share, es: seq<KanaryEndpointList>)
    requires WordStatus(es) && PrintsWords(printer)
    ensures Reached(Render(printer, Backends(share, es)), ":80") == ServersOf(printer, Backends(share, es))
    ensures forall name :: name != "kanary" ==> ServersIn(Parse(Render(printer, Backends(share, es))), name) == []
  {
    hide IsSpace, Parse, Reached, Targets, ServersIn, Render, Backends;
    var bs := Backends(share, es);
    forall i | 0 <= i < |bs| ensures IsWord(bs[i].name) && IsWord(bs[i].ip) {
      ServersAreAddresses(share, es, bs[i]);
      var k, m: nat :| 0 <= k < |es| && Serves(share, bs[i], es[k], m);
      assert es[k].ips[m] in es[k].ips;
      ServerNameIsWord(es[k].serviceName, m);
    }
    ParseRender(printer, bs);
  }

  lemma ServerNameIsWord(service: string, i: nat)
    requires IsWord(service)
    ensures IsWord(ServerName(service, i))
  {
  }
}
