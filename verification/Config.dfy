/** The configuration file of the Linux GUI: a printer of lines and a parser that reads them back. */
module Config {
  import opened Net
  import Decimal

  const LINE_BUFFER: nat := 2048
  const TEXT_BUFFER: nat := 256

  /** A rule as the GUI keeps it; a text may be a null pointer. */
  datatype RuleData = RuleData(id: uint32, protocol: int, action: int, enabled: bool,
                               process: Option<string>, hosts: Option<string>, ports: Option<string>)

  datatype Gui = Gui(ip: string, port: uint16, ptype: int, user: string, pass: string, logging: bool, dns: bool,
                     rules: seq<RuleData>)

  datatype Section = Nowhere | Settings | RuleLines

  // ---------- printing ----------

  function Text(s: Option<string>): string { if s.Some? then s.value else "" }

  function Flag(b: bool): string { if b then "1" else "0" }

  /** The seven columns of a rule line. */
  function Columns(r: RuleData): seq<string> {
    [Decimal.Print(r.id), Decimal.PrintInt(r.protocol), Decimal.PrintInt(r.action), Flag(r.enabled),
     Text(r.process), Text(r.hosts), Text(r.ports)]
  }

  function Barred(columns: seq<string>): string
    requires columns != []
  {
    if |columns| == 1 then columns[0] else columns[0] + "|" + Barred(columns[1..])
  }

  function RuleLine(r: RuleData): string { Barred(Columns(r)) }

  /** The keys of the settings section. */
  datatype Key = Ip | Port | Type | User | Pass | Logging | Dns

  function NameOf(key: Key): string {
    match key
    case Ip => "ip"
    case Port => "port"
    case Type => "type"
    case User => "user"
    case Pass => "pass"
    case Logging => "logging"
    case Dns => "dns"
  }

  /** The lines of the file, without their newlines. */
  function KeyLine(key: string, val: string): string { key + "=" + val }

  function SettingLines(g: Gui): seq<string> {
    ["[SETTINGS]",
     KeyLine("ip", g.ip), KeyLine("port", Decimal.Print(g.port)), KeyLine("type", Decimal.PrintInt(g.ptype)),
     KeyLine("user", g.user), KeyLine("pass", g.pass), KeyLine("logging", Flag(g.logging)), KeyLine("dns", Flag(g.dns)),
     "[RULES]"]
  }

  function Joined(lines: seq<string>): string {
    if lines == [] then "" else lines[0] + "\n" + Joined(lines[1..])
  }

  function Mapped<A, B>(s: seq<A>, f: A -> B): seq<B> {
    if s == [] then [] else [f(s[0])] + Mapped(s[1..], f)
  }

  function LinesOf(rules: seq<RuleData>): seq<string> { Mapped(rules, RuleLine) }

  function Saved(g: Gui): string { Joined(SettingLines(g) + LinesOf(g.rules)) }

  // ---------- parsing ----------

  /** Index of the first `c`, or the length when there is none. */
  function IndexOf(s: string, c: char): (i: nat)
    ensures i <= |s|
  {
    if s == "" || s[0] == c then 0 else 1 + IndexOf(s[1..], c)
  }

  /** How much one fgets takes: through the first newline, but at most 2047 characters. */
  function LineEnd(text: string): (k: nat)
    requires text != ""
    ensures 0 < k <= |text|
  {
    Min(Min(IndexOf(text, '\n') + 1, |text|), LINE_BUFFER - 1)
  }

  /** The part before the first CR or LF. */
  function Trimmed(s: string): string {
    if s == "" || s[0] == '\r' || s[0] == '\n' then "" else [s[0]] + Trimmed(s[1..])
  }

  /** strncpy into a 256-byte global whose last byte stays zero. */
  function Copied(s: string): string { if |s| < TEXT_BUFFER then s else s[..TEXT_BUFFER - 1] }

  function KeyOf(name: string): Option<Key> {
    if name == "ip" then Some(Ip)
    else if name == "port" then Some(Port)
    else if name == "type" then Some(Type)
    else if name == "user" then Some(User)
    else if name == "pass" then Some(Pass)
    else if name == "logging" then Some(Logging)
    else if name == "dns" then Some(Dns)
    else None
  }

  function Assign(g: Gui, key: Key, val: string): Gui {
    match key
    case Ip => g.(ip := Copied(val))
    case Port => g.(port := Decimal.Atoi(val) % 0x1_0000)
    case Type => g.(ptype := Decimal.Atoi(val))
    case User => g.(user := Copied(val))
    case Pass => g.(pass := Copied(val))
    case Logging => g.(logging := Decimal.Atoi(val) != 0)
    case Dns => g.(dns := Decimal.Atoi(val) != 0)
  }

  /** Unknown keys are ignored. */
  function AssignNamed(g: Gui, name: string, val: string): Gui {
    match KeyOf(name)
    case Some(key) => Assign(g, key, val)
    case None => g
  }

  /** The pieces between the bars; there is always at least one. */
  function Split(s: string): seq<string>
    decreases |s|
  {
    var k := IndexOf(s, '|');
    if k == |s| then [s] else [s[..k]] + Split(s[k + 1..])
  }

  /** A zeroed record whose fields are set from the pieces there are; further pieces are ignored. */
  function RuleOf(t: seq<string>): RuleData {
    RuleData(if |t| > 0 then Decimal.Atoi(t[0]) % 0x1_0000_0000 else 0,
             if |t| > 1 then Decimal.Atoi(t[1]) else 0,
             if |t| > 2 then Decimal.Atoi(t[2]) else 0,
             if |t| > 3 then Decimal.Atoi(t[3]) != 0 else false,
             if |t| > 4 then Some(t[4]) else None,
             if |t| > 5 then Some(t[5]) else None,
             if |t| > 6 then Some(t[6]) else None)
  }

  /** The effect of one trimmed line. */
  function Handle(line: string, section: Section, g: Gui): (Section, Gui) {
    if line == "" || line[0] == '#' then (section, g)
    else if line == "[SETTINGS]" then (Settings, g)
    else if line == "[RULES]" then (RuleLines, g)
    else match section
      case Nowhere => (section, g)
      case Settings =>
        var k := IndexOf(line, '=');
        (section, if k == |line| then g else AssignNamed(g, line[..k], line[k + 1..]))
      case RuleLines =>
        (section, if |Split(line)| >= 4 then g.(rules := g.rules + [RuleOf(Split(line))]) else g)
  }

  function Loaded(text: string, section: Section, g: Gui): Gui
    decreases |text|
  {
    if text == "" then g
    else
      var k := LineEnd(text);
      var (section1, g1) := Handle(Trimmed(text[..k]), section, g);
      Loaded(text[k..], section1, g1)
  }

  /** Lines that change nothing: empty ones and comments, any line before the first heading, settings
      without "=" or of an unknown key, and rule lines of fewer than four pieces. */
  lemma LinesWithoutEffect(line: string, section: Section, g: Gui)
    requires line != "[SETTINGS]" && line != "[RULES]"
    requires || line == "" || line[0] == '#' || section == Nowhere
             || (section == Settings && (IndexOf(line, '=') == |line| || KeyOf(line[..IndexOf(line, '=')]) == None))
             || (section == RuleLines && |Split(line)| < 4)
    ensures Handle(line, section, g) == (section, g)
  {
  }

  /** A setting of 256 characters or more is cut to its first 255. */
  lemma CopiedMeans(s: string)
    ensures |s| <= 255 ==> Copied(s) == s
    ensures |s| > 255 ==> Copied(s) == s[..255]
  {
  }

  /** Missing columns stay zero or null, and columns beyond the seventh are ignored. */
  lemma RuleOfPieces(t: seq<string>)
    requires |t| >= 4
    ensures var r := RuleOf(t);
            && r.id == Decimal.Atoi(t[0]) % 0x1_0000_0000 && r.protocol == Decimal.Atoi(t[1])
            && r.action == Decimal.Atoi(t[2]) && (r.enabled <==> Decimal.Atoi(t[3]) != 0)
            && r.process == (if |t| == 4 then None else Some(t[4]))
            && r.hosts == (if |t| <= 5 then None else Some(t[5]))
            && r.ports == (if |t| <= 6 then None else Some(t[6]))
  {
  }

  // ---------- the GUI's globals ----------

  class GuiConfig {
    var ip: string
    var port: uint16
    var ptype: int
    var user: string
    var pass: string
    var logging: bool
    var dns: bool
    var rules: seq<RuleData>

    ghost function View(): Gui
      reads this
    {
      Gui(ip, port, ptype, user, pass, logging, dns, rules)
    }

    constructor ()
      ensures View() == Gui("", 0, 1, "", "", true, true, [])
    {
      ip, port, ptype, user, pass, logging, dns, rules := "", 0, 1, "", "", true, true, [];
    }

    /** Prints line `n` of `all` at the end of a file that holds the lines before it. */
    static method Emit(file: string, line: string, ghost all: seq<string>, ghost n: nat) returns (file1: string)
      requires n < |all| && line == all[n] && file == Joined(all[..n])
      ensures file1 == Joined(all[..n + 1])
    {
      file1 := file + (line + "\n");
      JoinedAppend(all[..n], [line]);
      assert all[..n + 1] == all[..n] + [line];
      assert Joined([line]) == line + "\n" by { assert [line][1..] == []; }
    }

    method SaveSettings() returns (file: string)
      ensures file == Joined(SettingLines(View()))
    {
      ghost var all := SettingLines(View());
      file := "";
      file := Emit(file, "[SETTINGS]", all, 0);
      file := Emit(file, KeyLine("ip", ip), all, 1);
      file := Emit(file, KeyLine("port", Decimal.Print(port)), all, 2);
      file := Emit(file, KeyLine("type", Decimal.PrintInt(ptype)), all, 3);
      file := Emit(file, KeyLine("user", user), all, 4);
      file := Emit(file, KeyLine("pass", pass), all, 5);
      file := Emit(file, KeyLine("logging", Flag(logging)), all, 6);
      file := Emit(file, KeyLine("dns", Flag(dns)), all, 7);
      file := Emit(file, "[RULES]", all, 8);
      assert all[..9] == all;
    }

    method SaveConfig() returns (file: string)
      ensures file == Saved(View())
    {
      file := SaveSettings();
      ghost var lines := LinesOf(rules);
      MappedIndex(rules, RuleLine);
      var text := "";
      for i := 0 to |rules|
        invariant text == Joined(lines[..i])
      {
        text := Emit(text, RuleLine(rules[i]), lines, i);
      }
      assert lines[..|rules|] == lines;
      JoinedAppend(SettingLines(View()), lines);
      file := file + text;
    }

    static method SetField(r: RuleData, idx: nat, token: string, ghost done: seq<string>) returns (r1: RuleData)
      requires idx == |done| && r == RuleOf(done)
      ensures r1 == RuleOf(done + [token])
    {
      r1 := r;
      match idx {
        case 0 => r1 := r.(id := Decimal.Atoi(token) % 0x1_0000_0000);
        case 1 => r1 := r.(protocol := Decimal.Atoi(token));
        case 2 => r1 := r.(action := Decimal.Atoi(token));
        case 3 => r1 := r.(enabled := Decimal.Atoi(token) != 0);
        case 4 => r1 := r.(process := Some(token));
        case 5 => r1 := r.(hosts := Some(token));
        case 6 => r1 := r.(ports := Some(token));
        case _ =>
      }
    }

    static method ParseRule(line: string) returns (r: RuleData, idx: nat)
      ensures r == RuleOf(Split(line)) && idx == |Split(line)|
    {
      r, idx := RuleData(0, 0, 0, false, None, None, None), 0;
      var p := Some(line);
      ghost var done: seq<string> := [];
      while p.Some?
        invariant r == RuleOf(done) && idx == |done|
        invariant SplitInto([], line) == if p.Some? then SplitInto(done, p.value) else done
        decreases if p.Some? then |p.value| + 1 else 0
      {
        var k := IndexOf(p.value, '|');
        var token := p.value[..k];
        p := if k == |p.value| then None else Some(p.value[k + 1..]);
        r := SetField(r, idx, token, done);
        done := done + [token];
        idx := idx + 1;
      }
      SplitIntoAppends([], line);
    }

    method StoreSetting(key: string, val: string)
      modifies this
      ensures View() == AssignNamed(old(View()), key, val)
    {
      if key == "ip" { ip := Copied(val); }
      else if key == "port" { port := Decimal.Atoi(val) % 0x1_0000; }
      else if key == "type" { ptype := Decimal.Atoi(val); }
      else if key == "user" { user := Copied(val); }
      else if key == "pass" { pass := Copied(val); }
      else if key == "logging" { logging := Decimal.Atoi(val) != 0; }
      else if key == "dns" { dns := Decimal.Atoi(val) != 0; }
    }

    method LoadConfig(file: string)
      modifies this
      ensures View() == Loaded(file, Nowhere, old(View()))
    {
      var section := Nowhere;
      var rest := file;
      while rest != ""
        invariant Loaded(rest, section, View()) == Loaded(file, Nowhere, old(View()))
        decreases |rest|
      {
        var k := LineEnd(rest);
        var line := Trimmed(rest[..k]);
        rest := rest[k..];
        if line == "" || line[0] == '#' { continue; }
        if line == "[SETTINGS]" { section := Settings; continue; }
        if line == "[RULES]" { section := RuleLines; continue; }
        if section == Settings {
          var eq := IndexOf(line, '=');
          if eq == |line| { continue; }
          StoreSetting(line[..eq], line[eq + 1..]);
        } else if section == RuleLines {
          var r, idx := ParseRule(line);
          if idx >= 4 {
            rules := rules + [r];
          }
        }
      }
    }
  }

  /** The splitting loop with the pieces taken so far. */
  function SplitInto(done: seq<string>, s: string): seq<string>
    decreases |s|
  {
    var k := IndexOf(s, '|');
    if k == |s| then done + [s[..k]] else SplitInto(done + [s[..k]], s[k + 1..])
  }

  lemma {:induction false} SplitIntoAppends(done: seq<string>, s: string)
    ensures SplitInto(done, s) == done + Split(s)
    decreases |s|
  {
    var k := IndexOf(s, '|');
    if k == |s| {
      assert s[..k] == s;
    } else {
      SplitIntoAppends(done + [s[..k]], s[k + 1..]);
      Assoc(done, s[..k], Split(s[k + 1..]));
    }
  }

  lemma {:induction false} MappedIndex<A, B>(s: seq<A>, f: A -> B)
    ensures |Mapped(s, f)| == |s| && forall i :: 0 <= i < |s| ==> Mapped(s, f)[i] == f(s[i])
  {
    if s != [] {
      MappedIndex(s[1..], f);
    }
  }

  lemma {:induction false} JoinedAppend(a: seq<string>, b: seq<string>)
    ensures Joined(a + b) == Joined(a) + Joined(b)
  {
    if a == [] {
      assert a + b == b;
    } else {
      assert (a + b)[1..] == a[1..] + b;
      JoinedAppend(a[1..], b);
    }
  }

  // ---------- round trip ----------

  predicate OneLine(s: string) { forall i :: 0 <= i < |s| ==> s[i] != '\n' && s[i] != '\r' }

  predicate NoBar(s: string) { forall i :: 0 <= i < |s| ==> s[i] != '|' }

  predicate OneLineTexts(r: RuleData) { OneLine(Text(r.process)) && OneLine(Text(r.hosts)) && OneLine(Text(r.ports)) }

  predicate BarFree(r: RuleData) { NoBar(Text(r.process)) && NoBar(Text(r.hosts)) && NoBar(Text(r.ports)) }

  /** What a line of the file can hold of a rule: texts without bars, CR and LF on a line that one read
      takes whole. */
  predicate Holdable(r: RuleData) { BarFree(r) && OneLineTexts(r) && |RuleLine(r)| < 2048 }

  /** Settings without CR and LF. */
  predicate OneLineSettings(g: Gui) { OneLine(g.ip) && OneLine(g.user) && OneLine(g.pass) }

  /** Settings that fit their buffers, and numbers within a C int. */
  predicate Saveable(g: Gui) {
    && |g.ip| < 256 && |g.user| < 256 && |g.pass| < 256
    && IsInt32(g.ptype)
    && forall i :: 0 <= i < |g.rules| ==> NumbersFit(g.rules[i])
  }

  predicate IsInt32(n: int) { -0x8000_0000 <= n < 0x8000_0000 }

  predicate NumbersFit(r: RuleData) { r.id < 0x8000_0000 && IsInt32(r.protocol) && IsInt32(r.action) }

  /** A null text comes back as the empty text. */
  function Reread(r: RuleData): RuleData {
    r.(process := Some(Text(r.process)), hosts := Some(Text(r.hosts)), ports := Some(Text(r.ports)))
  }

  /** What the parser makes of the line printed for `r`. */
  function Parsed(r: RuleData): RuleData { RuleOf(Split(RuleLine(r))) }

  function RereadAll(rules: seq<RuleData>): seq<RuleData> {
    seq(|rules|, i requires 0 <= i < |rules| => Reread(rules[i]))
  }

  lemma {:induction false} IndexOfFirst(a: string, c: char, b: string)
    requires forall i :: 0 <= i < |a| ==> a[i] != c
    ensures IndexOf(a + [c] + b, c) == |a|
  {
    var s := a + [c] + b;
    if a != "" {
      IndexOfFirst(a[1..], c, b);
      assert s[1..] == a[1..] + [c] + b;
    }
  }

  lemma {:induction false} IndexOfNone(a: string, c: char)
    requires forall i :: 0 <= i < |a| ==> a[i] != c
    ensures IndexOf(a, c) == |a|
  {
    if a != "" {
      IndexOfNone(a[1..], c);
    }
  }

  lemma {:induction false} TrimmedLine(s: string, ending: string)
    requires OneLine(s) && (ending == "" || ending == "\n")
    ensures Trimmed(s + ending) == s
  {
    if s != "" {
      TrimmedLine(s[1..], ending);
      assert (s + ending)[1..] == s[1..] + ending;
    }
  }

  /** One line of at most 2047 characters is read back whole; a line of exactly 2047 leaves its newline
      to the next read, which skips it as an empty line. */
  lemma LoadLine(line: string, rest: string, section: Section, g: Gui)
    requires OneLine(line) && |line| < LINE_BUFFER
    ensures var (section1, g1) := Handle(line, section, g);
            Loaded(line + "\n" + rest, section, g) == Loaded(rest, section1, g1)
  {
    var text := line + "\n" + rest;
    IndexOfFirst(line, '\n', rest);
    var (section1, g1) := Handle(line, section, g);
    if |line| + 1 < LINE_BUFFER {
      assert text[..|line| + 1] == line + "\n" && text[|line| + 1..] == rest;
      TrimmedLine(line, "\n");
    } else {
      assert text[..|line|] == line && text[|line|..] == "\n" + rest;
      assert line + "" == line;
      TrimmedLine(line, "");
      var tail := "\n" + rest;
      assert IndexOf(tail, '\n') == 0 && tail[..1] == "\n" && tail[1..] == rest;
      assert Loaded(tail, section1, g1) == Loaded(rest, section1, g1);
    }
  }

  function HandleAll(lines: seq<string>, section: Section, g: Gui): (Section, Gui) {
    if lines == [] then (section, g)
    else
      var (section1, g1) := Handle(lines[0], section, g);
      HandleAll(lines[1..], section1, g1)
  }

  lemma {:induction false} LoadLines(lines: seq<string>, rest: string, section: Section, g: Gui)
    requires forall i :: 0 <= i < |lines| ==> OneLine(lines[i]) && |lines[i]| < LINE_BUFFER
    ensures var (section1, g1) := HandleAll(lines, section, g);
            Loaded(Joined(lines) + rest, section, g) == Loaded(rest, section1, g1)
  {
    if lines == [] {
      assert Joined(lines) + rest == rest;
    } else {
      var rest1 := Joined(lines[1..]) + rest;
      assert Joined(lines) + rest == lines[0] + "\n" + rest1;
      LoadLine(lines[0], rest1, section, g);
      var (section1, g1) := Handle(lines[0], section, g);
      LoadLines(lines[1..], rest, section1, g1);
    }
  }

  lemma {:induction false} HandleAppend(a: seq<string>, b: seq<string>, section: Section, g: Gui)
    ensures HandleAll(a + b, section, g) == var (section1, g1) := HandleAll(a, section, g); HandleAll(b, section1, g1)
  {
    if a == [] {
      assert a + b == b;
    } else {
      assert (a + b)[1..] == a[1..] + b;
      var (section1, g1) := Handle(a[0], section, g);
      HandleAppend(a[1..], b, section1, g1);
    }
  }

  lemma Assoc<T>(a: seq<T>, x: T, b: seq<T>)
    ensures a + ([x] + b) == a + [x] + b
  {
  }

  lemma SplitNext(a: string, rest: string)
    requires NoBar(a)
    ensures Split(a + "|" + rest) == [a] + Split(rest)
  {
    IndexOfFirst(a, '|', rest);
    var s := a + "|" + rest;
    assert s[..|a|] == a && s[|a| + 1..] == rest;
  }

  lemma NumbersHaveNoBar(n: int)
    ensures NoBar(Decimal.PrintInt(n)) && OneLine(Decimal.PrintInt(n))
  {
    Decimal.PrintIntChars(n);
  }

  lemma {:induction false} SplitOfBarred(columns: seq<string>)
    requires columns != [] && forall i :: 0 <= i < |columns| ==> NoBar(columns[i])
    ensures Split(Barred(columns)) == columns
  {
    if |columns| == 1 {
      IndexOfNone(columns[0], '|');
    } else {
      SplitNext(columns[0], Barred(columns[1..]));
      SplitOfBarred(columns[1..]);
    }
  }

  lemma {:induction false} PiecesHaveNoBar(s: string)
    ensures forall i :: 0 <= i < |Split(s)| ==> NoBar(Split(s)[i])
    decreases |s|
  {
    var k := IndexOf(s, '|');
    BeforeIndexOf(s, '|');
    if k < |s| {
      PiecesHaveNoBar(s[k + 1..]);
    }
  }

  lemma {:induction false} BeforeIndexOf(s: string, c: char)
    ensures forall i :: 0 <= i < IndexOf(s, c) ==> s[i] != c
  {
    if s != "" && s[0] != c {
      BeforeIndexOf(s[1..], c);
    }
  }

  /** The first piece, a bar and the text that spells the other pieces. */
  lemma FirstPiece(s: string) returns (rest: string)
    requires |Split(s)| >= 2
    ensures Split(s)[1..] == Split(rest) && |s| == |Split(s)[0]| + 1 + |rest|
    ensures OneLine(s) ==> OneLine(Split(s)[0]) && OneLine(rest)
  {
    var k := IndexOf(s, '|');
    rest := s[k + 1..];
    assert Split(s) == [s[..k]] + Split(rest);
  }

  lemma AnyFirstPiece(s: string)
    ensures |Split(s)[0]| <= |s| && (OneLine(s) ==> OneLine(Split(s)[0]))
  {
  }

  /** The first three pieces and the bars between them lie in the text one after the other. */
  lemma ThreePieces(s: string)
    requires |Split(s)| >= 3
    ensures |s| >= |Split(s)[0]| + 1 + |Split(s)[1]| + 1 + |Split(s)[2]|
    ensures OneLine(s) ==> OneLine(Split(s)[0]) && OneLine(Split(s)[1]) && OneLine(Split(s)[2])
  {
    var t := Split(s);
    var s1 := FirstPiece(s);
    assert t[1..][0] == t[1] && t[1..][1] == t[2];
    var s2 := FirstPiece(s1);
    assert Split(s1)[1..][0] == Split(s1)[1];
    AnyFirstPiece(s2);
  }

  lemma {:induction false} BarredOneLine(columns: seq<string>)
    requires columns != [] && forall i :: 0 <= i < |columns| ==> OneLine(columns[i])
    ensures OneLine(Barred(columns))
    ensures columns[0] != "" ==> Barred(columns) != "" && Barred(columns)[0] == columns[0][0]
  {
    if |columns| > 1 {
      BarredOneLine(columns[1..]);
    }
  }

  lemma NumberColumnsClean(r: RuleData, i: nat)
    requires i < 4
    ensures NoBar(Columns(r)[i]) && OneLine(Columns(r)[i])
  {
    NumbersHaveNoBar(r.id);
    NumbersHaveNoBar(r.protocol);
    NumbersHaveNoBar(r.action);
    FlagReads(r.enabled);
  }

  /** The number columns with their bars, and the three texts. */
  function Numbers(r: RuleData): string {
    Decimal.Print(r.id) + "|" + Decimal.PrintInt(r.protocol) + "|" + Decimal.PrintInt(r.action) + "|"
        + Flag(r.enabled) + "|"
  }

  function Texts(r: RuleData): string { Text(r.process) + "|" + Text(r.hosts) + "|" + Text(r.ports) }

  lemma BarredCons(column: string, rest: seq<string>)
    requires rest != []
    ensures Barred([column] + rest) == column + "|" + Barred(rest)
  {
    assert ([column] + rest)[1..] == rest;
  }

  lemma BarredTwo(a: string, b: string, rest: seq<string>)
    requires rest != []
    ensures Barred([a, b] + rest) == a + "|" + b + "|" + Barred(rest)
  {
    assert [a, b] + rest == [a] + ([b] + rest);
    BarredCons(a, [b] + rest);
    BarredCons(b, rest);
    assert a + "|" + (b + "|" + Barred(rest)) == a + "|" + b + "|" + Barred(rest);
  }

  lemma BarredFour(a: string, b: string, c: string, d: string, rest: seq<string>)
    requires rest != []
    ensures Barred([a, b, c, d] + rest) == a + "|" + b + "|" + c + "|" + d + "|" + Barred(rest)
  {
    assert [a, b, c, d] + rest == [a, b] + ([c, d] + rest);
    BarredTwo(a, b, [c, d] + rest);
    BarredTwo(c, d, rest);
    assert a + "|" + b + "|" + (c + "|" + d + "|" + Barred(rest))
        == a + "|" + b + "|" + c + "|" + d + "|" + Barred(rest);
  }

  lemma RuleLineIs(r: RuleData)
    ensures RuleLine(r) == Numbers(r) + Texts(r)
  {
    var c := Columns(r);
    assert c == [c[0], c[1], c[2], c[3]] + ([c[4], c[5]] + [c[6]]);
    BarredTwo(c[4], c[5], [c[6]]);
    BarredFour(c[0], c[1], c[2], c[3], [c[4], c[5]] + [c[6]]);
  }

  lemma TwoPieces(a: string, b: string, tail: string)
    requires NoBar(a) && NoBar(b)
    ensures Split(a + "|" + b + "|" + tail) == [a, b] + Split(tail)
  {
    assert a + "|" + b + "|" + tail == a + "|" + (b + "|" + tail);
    SplitNext(a, b + "|" + tail);
    SplitNext(b, tail);
    assert [a] + ([b] + Split(tail)) == [a, b] + Split(tail);
  }

  lemma FourPieces(a: string, b: string, c: string, d: string, tail: string)
    requires NoBar(a) && NoBar(b) && NoBar(c) && NoBar(d)
    ensures Split(a + "|" + b + "|" + c + "|" + d + "|" + tail) == [a, b, c, d] + Split(tail)
  {
    var tail2 := c + "|" + d + "|" + tail;
    assert a + "|" + b + "|" + c + "|" + d + "|" + tail == a + "|" + b + "|" + tail2;
    TwoPieces(a, b, tail2);
    TwoPieces(c, d, tail);
    assert [a, b] + ([c, d] + Split(tail)) == [a, b, c, d] + Split(tail);
  }

  /** Whatever follows the number columns, they come back whole as the first four pieces. */
  lemma NumbersSplit(r: RuleData, tail: string)
    ensures Split(Numbers(r) + tail) == Columns(r)[..4] + Split(tail)
  {
    var c := Columns(r);
    NumberColumnsClean(r, 0);
    NumberColumnsClean(r, 1);
    NumberColumnsClean(r, 2);
    NumberColumnsClean(r, 3);
    FourPieces(c[0], c[1], c[2], c[3], tail);
    assert c[..4] == [c[0], c[1], c[2], c[3]];
  }

  /** A line that begins with the number columns is parsed as the rule only if its next three pieces are
      the rule's texts. */
  lemma TextsAreThePieces(r: RuleData, tail: string)
    ensures |Split(Numbers(r) + tail)| >= 5
    ensures RuleOf(Split(Numbers(r) + tail)) == Reread(r) ==>
              var t := Split(tail);
              |t| >= 3 && t[0] == Text(r.process) && t[1] == Text(r.hosts) && t[2] == Text(r.ports)
  {
    NumbersSplit(r, tail);
    var t := Columns(r)[..4] + Split(tail);
    assert |t| > 4 ==> t[4] == Split(tail)[0];
    assert |t| > 5 ==> t[5] == Split(tail)[1];
    assert |t| > 6 ==> t[6] == Split(tail)[2];
  }

  /** A printed rule is parsed back exactly when none of its texts holds a bar. */
  lemma RuleLineParsesIff(r: RuleData)
    ensures Parsed(r) == Reread(r) <==> BarFree(r)
  {
    if BarFree(r) {
      forall i | 0 <= i < 7
        ensures NoBar(Columns(r)[i])
      {
        if i < 4 {
          NumberColumnsClean(r, i);
        }
      }
      SplitOfBarred(Columns(r));
      ColumnsParse(r);
    } else {
      RuleLineIs(r);
      TextsAreThePieces(r, Texts(r));
      PiecesHaveNoBar(Texts(r));
    }
  }

  lemma ColumnsParse(r: RuleData)
    ensures RuleOf(Columns(r)) == Reread(r)
  {
    Decimal.AtoiOfPrint(r.id);
    Decimal.AtoiOfPrintInt(r.protocol);
    Decimal.AtoiOfPrintInt(r.action);
    FlagReads(r.enabled);
  }

  lemma FlagReads(b: bool)
    ensures (Decimal.Atoi(Flag(b)) != 0) == b && NoBar(Flag(b)) && OneLine(Flag(b))
  {
    assert Flag(b) == Decimal.Print(if b then 1 else 0);
    Decimal.AtoiOfPrint(if b then 1 else 0);
  }

  lemma RuleLineIsOneLine(r: RuleData)
    requires OneLineTexts(r)
    ensures OneLine(RuleLine(r)) && RuleLine(r) != "" && Decimal.IsDigit(RuleLine(r)[0])
  {
    forall i | 0 <= i < |Columns(r)|
      ensures OneLine(Columns(r)[i])
    {
      if i < 4 {
        NumberColumnsClean(r, i);
      }
    }
    BarredOneLine(Columns(r));
  }

  lemma RuleLineLoads(r: RuleData, g: Gui)
    requires Holdable(r)
    ensures Handle(RuleLine(r), RuleLines, g) == (RuleLines, g.(rules := g.rules + [Reread(r)]))
  {
    RuleLineIsOneLine(r);
    RuleLineParsesIff(r);
    RuleLineIs(r);
    TextsAreThePieces(r, Texts(r));
    assert RuleLine(r)[0] != "[SETTINGS]"[0] && RuleLine(r)[0] != "[RULES]"[0];
  }

  lemma HandleCons(line: string, rest: seq<string>, section: Section, g: Gui)
    ensures HandleAll([line] + rest, section, g)
            == var (section1, g1) := Handle(line, section, g); HandleAll(rest, section1, g1)
  {
    assert ([line] + rest)[1..] == rest;
  }

  lemma {:induction false} RulesLoad(rules: seq<RuleData>, g: Gui)
    requires forall i :: 0 <= i < |rules| ==> Holdable(rules[i])
    ensures HandleAll(LinesOf(rules), RuleLines, g) == (RuleLines, g.(rules := g.rules + RereadAll(rules)))
  {
    if rules == [] {
      assert g.rules + [] == g.rules;
    } else {
      var line, r := RuleLine(rules[0]), Reread(rules[0]);
      RuleLineLoads(rules[0], g);
      RulesLoad(rules[1..], g.(rules := g.rules + [r]));
      HandleCons(line, LinesOf(rules[1..]), RuleLines, g);
      assert RereadAll(rules) == [r] + RereadAll(rules[1..]);
      Assoc(g.rules, r, RereadAll(rules[1..]));
    }
  }

  function ValueOf(g: Gui, key: Key): string {
    match key
    case Ip => g.ip
    case Port => Decimal.Print(g.port)
    case Type => Decimal.PrintInt(g.ptype)
    case User => g.user
    case Pass => g.pass
    case Logging => Flag(g.logging)
    case Dns => Flag(g.dns)
  }

  /** `x` with the setting of `key` taken from `g`. */
  function With(x: Gui, g: Gui, key: Key): Gui {
    match key
    case Ip => x.(ip := g.ip)
    case Port => x.(port := g.port)
    case Type => x.(ptype := g.ptype)
    case User => x.(user := g.user)
    case Pass => x.(pass := g.pass)
    case Logging => x.(logging := g.logging)
    case Dns => x.(dns := g.dns)
  }

  lemma KeysAreNamed(key: Key)
    ensures KeyOf(NameOf(key)) == Some(key)
    ensures var name := NameOf(key);
            name != "" && name[0] != '#' && name[0] != '[' && forall i :: 0 <= i < |name| ==> name[i] != '='
  {
  }

  /** Each printed setting sets its own global, to what it was, and no other. */
  lemma AssignRestores(x: Gui, g: Gui, key: Key)
    requires Saveable(g)
    ensures Assign(x, key, ValueOf(g, key)) == With(x, g, key)
  {
    Decimal.AtoiOfPrint(g.port);
    Decimal.AtoiOfPrintInt(g.ptype);
    FlagReads(g.logging);
    FlagReads(g.dns);
  }

  lemma SettingLoads(key: Key, val: string, g: Gui)
    ensures Handle(KeyLine(NameOf(key), val), Settings, g) == (Settings, Assign(g, key, val))
  {
    var name := NameOf(key);
    var line := KeyLine(name, val);
    KeysAreNamed(key);
    IndexOfFirst(name, '=', val);
    assert line[0] == name[0] && line[..|name|] == name && line[|name| + 1..] == val;
    assert line[0] != "[SETTINGS]"[0] && line[0] != "[RULES]"[0];
  }

  function KeyLines(g: Gui, keys: seq<Key>): seq<string> {
    seq(|keys|, i requires 0 <= i < |keys| => KeyLine(NameOf(keys[i]), ValueOf(g, keys[i])))
  }

  function WithAll(x: Gui, g: Gui, keys: seq<Key>): Gui
    decreases |keys|
  {
    if keys == [] then x else WithAll(With(x, g, keys[0]), g, keys[1..])
  }

  lemma {:induction false} KeyLinesLoad(g: Gui, keys: seq<Key>, x: Gui)
    requires Saveable(g)
    ensures HandleAll(KeyLines(g, keys), Settings, x) == (Settings, WithAll(x, g, keys))
  {
    if keys != [] {
      SettingLoads(keys[0], ValueOf(g, keys[0]), x);
      AssignRestores(x, g, keys[0]);
      KeyLinesLoad(g, keys[1..], With(x, g, keys[0]));
      assert KeyLines(g, keys)[1..] == KeyLines(g, keys[1..]);
    }
  }

  lemma WithCons(x: Gui, g: Gui, key: Key, rest: seq<Key>)
    ensures WithAll(x, g, [key] + rest) == WithAll(With(x, g, key), g, rest)
  {
    assert ([key] + rest)[1..] == rest;
  }

  const KEYS: seq<Key> := [Ip] + ([Port] + ([Type] + ([User] + ([Pass] + ([Logging] + ([Dns] + []))))))

  /** The seven keys set the seven globals. */
  lemma KeysRestore(g: Gui, x: Gui)
    ensures WithAll(x, g, KEYS) == g.(rules := x.rules)
  {
    var none: seq<Key> := [];
    var k6 := [Dns] + none;
    var k5 := [Logging] + k6;
    var k4 := [Pass] + k5;
    var k3 := [User] + k4;
    var k2 := [Type] + k3;
    var k1 := [Port] + k2;
    WithCons(x, g, Ip, k1);
    var x1 := With(x, g, Ip);
    WithCons(x1, g, Port, k2);
    var x2 := With(x1, g, Port);
    WithCons(x2, g, Type, k3);
    var x3 := With(x2, g, Type);
    WithCons(x3, g, User, k4);
    var x4 := With(x3, g, User);
    WithCons(x4, g, Pass, k5);
    var x5 := With(x4, g, Pass);
    WithCons(x5, g, Logging, k6);
    WithCons(With(x5, g, Logging), g, Dns, none);
  }

  lemma SettingLinesAre(g: Gui)
    ensures SettingLines(g) == ["[SETTINGS]"] + KeyLines(g, KEYS) + ["[RULES]"]
  {
    assert KEYS == [Ip, Port, Type, User, Pass, Logging, Dns];
    assert KeyLines(g, KEYS) == [KeyLine("ip", g.ip), KeyLine("port", Decimal.Print(g.port)),
                                 KeyLine("type", Decimal.PrintInt(g.ptype)),
                                 KeyLine("user", g.user), KeyLine("pass", g.pass),
                                 KeyLine("logging", Flag(g.logging)), KeyLine("dns", Flag(g.dns))];
  }

  lemma SettingsLoad(g: Gui, g0: Gui)
    requires Saveable(g)
    ensures HandleAll(SettingLines(g), Nowhere, g0) == (RuleLines, g.(rules := g0.rules))
  {
    SettingLinesAre(g);
    var head, keys, foot := ["[SETTINGS]"], KeyLines(g, KEYS), ["[RULES]"];
    HandleAppend(head + keys, foot, Nowhere, g0);
    HandleAppend(head, keys, Nowhere, g0);
    OneHeading(g0, g.(rules := g0.rules));
    KeyLinesLoad(g, KEYS, g0);
    KeysRestore(g, g0);
  }

  lemma OneHeading(g: Gui, g1: Gui)
    ensures HandleAll(["[SETTINGS]"], Nowhere, g) == (Settings, g)
    ensures HandleAll(["[RULES]"], Settings, g1) == (RuleLines, g1)
  {
    assert ["[SETTINGS]"][1..] == [] && ["[RULES]"][1..] == [];
  }

  lemma IntLength(n: int)
    requires IsInt32(n)
    ensures |Decimal.PrintInt(n)| <= 11
  {
    assert Decimal.Pow10(10) == 10_000_000_000;
    Decimal.PrintLength(if n < 0 then -n else n, 10);
  }

  lemma SettingLinesFit(g: Gui, i: nat)
    requires Saveable(g) && OneLineSettings(g) && i < |SettingLines(g)|
    ensures OneLine(SettingLines(g)[i]) && |SettingLines(g)[i]| < LINE_BUFFER
  {
    NumbersHaveNoBar(g.port);
    NumbersHaveNoBar(g.ptype);
    FlagReads(g.logging);
    FlagReads(g.dns);
    Decimal.PrintLength(g.port, 5);
    IntLength(g.ptype);
  }

  /** The columns of a rule line, in order. */
  lemma ColumnsInOrder(r: RuleData)
    requires BarFree(r)
    ensures Split(RuleLine(r)) == [Decimal.Print(r.id), Decimal.PrintInt(r.protocol), Decimal.PrintInt(r.action),
                                   if r.enabled then "1" else "0", Text(r.process), Text(r.hosts), Text(r.ports)]
  {
    forall i | 0 <= i < 7
      ensures NoBar(Columns(r)[i])
    {
      if i < 4 {
        NumberColumnsClean(r, i);
      }
    }
    SplitOfBarred(Columns(r));
  }

  /** The settings lines, in order. */
  lemma SettingsInOrder(g: Gui)
    ensures SettingLines(g) == ["[SETTINGS]", "ip=" + g.ip, "port=" + Decimal.Print(g.port),
                                "type=" + Decimal.PrintInt(g.ptype), "user=" + g.user, "pass=" + g.pass,
                                "logging=" + (if g.logging then "1" else "0"), "dns=" + (if g.dns then "1" else "0"),
                                "[RULES]"]
  {
    assert "ip=" == "ip" + "=" && "port=" == "port" + "=" && "type=" == "type" + "=" && "user=" == "user" + "=";
    assert "pass=" == "pass" + "=" && "logging=" == "logging" + "=" && "dns=" == "dns" + "=";
  }

  // ---------- the first read of a rule line, whatever its texts ----------

  /** What follows the number columns on the line that the first read of `r` hands to the parser. */
  function FirstTail(r: RuleData, rest: string): string {
    var text := RuleLine(r) + "\n" + rest;
    var line := Trimmed(text[..LineEnd(text)]);
    if |Numbers(r)| <= |line| then line[|Numbers(r)|..] else ""
  }

  lemma {:induction false} TrimmedBehind(a: string, b: string)
    requires OneLine(a)
    ensures Trimmed(a + b) == a + Trimmed(b)
  {
    if a == "" {
      assert a + b == b;
    } else {
      TrimmedBehind(a[1..], b);
      assert (a + b)[1..] == a[1..] + b;
    }
  }

  lemma {:induction false} TrimmedIsPrefix(s: string)
    ensures OneLine(Trimmed(s)) && Trimmed(s) <= s
  {
    if s != "" && s[0] != '\r' && s[0] != '\n' {
      TrimmedIsPrefix(s[1..]);
    }
  }

  lemma NumbersAreShort(r: RuleData)
    requires NumbersFit(r)
    ensures |Numbers(r)| <= 38 && OneLine(Numbers(r)) && Decimal.IsDigit(Numbers(r)[0])
  {
    assert Decimal.Pow10(10) == 10_000_000_000;
    Decimal.PrintLength(r.id, 10);
    IntLength(r.protocol);
    IntLength(r.action);
    NumbersHaveNoBar(r.id);
    NumbersHaveNoBar(r.protocol);
    NumbersHaveNoBar(r.action);
    FlagReads(r.enabled);
  }

  lemma LineReachesNewline(a: string, k: nat, rest: string)
    requires k <= |a + "\n" + rest|
    ensures k > |a| ==> !OneLine((a + "\n" + rest)[..k])
  {
    if k > |a| {
      assert (a + "\n" + rest)[..k][|a|] == '\n';
    }
  }

  /** The first read always takes the number columns whole; behind them it takes a part of the texts. */
  lemma FirstRead(r: RuleData, rest: string)
    requires NumbersFit(r)
    ensures var text := RuleLine(r) + "\n" + rest; var tail := FirstTail(r, rest);
            && Trimmed(text[..LineEnd(text)]) == Numbers(r) + tail
            && OneLine(tail) && |tail| <= |Texts(r)| && |Numbers(r)| + |tail| < LINE_BUFFER
  {
    var text := RuleLine(r) + "\n" + rest;
    var k := LineEnd(text);
    var n := |Numbers(r)|;
    RuleLineIs(r);
    NumbersAreShort(r);
    var behind := Texts(r) + "\n" + rest;
    assert text == Numbers(r) + behind;
    NumbersInFirstRead(r, behind);
    assert text[..k] == Numbers(r) + behind[..k - n];
    TrimmedBehind(Numbers(r), behind[..k - n]);
    var tail := Trimmed(behind[..k - n]);
    TrimmedIsPrefix(behind[..k - n]);
    assert behind[..|tail|] == tail;
    LineReachesNewline(Texts(r), |tail|, rest);
  }

  lemma NumbersInFirstRead(r: RuleData, behind: string)
    requires NumbersFit(r) && behind != ""
    ensures |Numbers(r)| <= LineEnd(Numbers(r) + behind) < LINE_BUFFER
  {
    NumbersAreShort(r);
    IndexOfBehind(Numbers(r), behind, '\n');
  }

  lemma {:induction false} IndexOfBehind(a: string, b: string, c: char)
    requires forall i :: 0 <= i < |a| ==> a[i] != c
    ensures IndexOf(a + b, c) == |a| + IndexOf(b, c)
  {
    if a == "" {
      assert a + b == b;
    } else {
      IndexOfBehind(a[1..], b, c);
      assert (a + b)[1..] == a[1..] + b;
    }
  }

  /** The record made of the first read is the rule only if a line can hold the rule. */
  lemma FirstReadIsRightOnlyIf(r: RuleData, rest: string)
    requires NumbersFit(r)
    requires RuleOf(Split(Numbers(r) + FirstTail(r, rest))) == Reread(r)
    ensures Holdable(r)
  {
    var tail := FirstTail(r, rest);
    FirstRead(r, rest);
    RuleLineIs(r);
    TextsAreThePieces(r, tail);
    ThreePieces(tail);
    PiecesHaveNoBar(tail);
  }

  /** Reading on only appends rules. */
  lemma {:induction false} LoadingAppends(text: string, section: Section, g: Gui)
    ensures g.rules <= Loaded(text, section, g).rules
    decreases |text|
  {
    if text != "" {
      var k := LineEnd(text);
      var line := Trimmed(text[..k]);
      var (section1, g1) := Handle(line, section, g);
      assert g.rules <= g1.rules;
      LoadingAppends(text[k..], section1, g1);
    }
  }

  /** A rule that no line can hold leaves a wrong record in its place, whatever comes after it. */
  lemma UnholdableRuleIsLost(r: RuleData, rest: string, g: Gui)
    requires NumbersFit(r) && !Holdable(r)
    ensures var rules := Loaded(RuleLine(r) + "\n" + rest, RuleLines, g).rules;
            |rules| > |g.rules| && rules[|g.rules|] != Reread(r)
  {
    var text, tail := RuleLine(r) + "\n" + rest, FirstTail(r, rest);
    var line := Numbers(r) + tail;
    FirstRead(r, rest);
    NumbersAreShort(r);
    TextsAreThePieces(r, tail);
    if RuleOf(Split(line)) == Reread(r) {
      FirstReadIsRightOnlyIf(r, rest);
    }
    assert line[0] == Numbers(r)[0] && line[0] != "[SETTINGS]"[0] && line[0] != "[RULES]"[0];
    var g1 := g.(rules := g.rules + [RuleOf(Split(line))]);
    assert Handle(line, RuleLines, g) == (RuleLines, g1);
    LoadingAppends(text[LineEnd(text)..], RuleLines, g1);
  }

  // ---------- the whole file ----------

  /** The settings and the rules before the first unholdable one are restored. */
  lemma LoadOfPrefix(g: Gui, g0: Gui, n: nat, rest: string)
    requires Saveable(g) && OneLineSettings(g) && n <= |g.rules| && forall i :: 0 <= i < n ==> Holdable(g.rules[i])
    ensures Loaded(Joined(SettingLines(g) + LinesOf(g.rules[..n])) + rest, Nowhere, g0)
            == Loaded(rest, RuleLines, g.(rules := g0.rules + RereadAll(g.rules[..n])))
  {
    var rules := g.rules[..n];
    var a, b := SettingLines(g), LinesOf(rules);
    MappedIndex(rules, RuleLine);
    forall i | 0 <= i < |a + b|
      ensures OneLine((a + b)[i]) && |(a + b)[i]| < LINE_BUFFER
    {
      if i < |a| {
        SettingLinesFit(g, i);
      } else {
        RuleLineIsOneLine(rules[i - |a|]);
      }
    }
    LoadLines(a + b, rest, Nowhere, g0);
    HandleAppend(a, b, Nowhere, g0);
    SettingsLoad(g, g0);
    RulesLoad(rules, g.(rules := g0.rules));
  }

  /** What is restored: every setting, and the saved rules in order behind those held before. */
  function Restored(g: Gui, g0: Gui): Gui { g.(rules := g0.rules + RereadAll(g.rules)) }

  lemma LoadOfSaved(g: Gui, g0: Gui)
    requires Saveable(g) && OneLineSettings(g) && forall i :: 0 <= i < |g.rules| ==> Holdable(g.rules[i])
    ensures Loaded(Saved(g), Nowhere, g0) == Restored(g, g0)
  {
    LoadOfPrefix(g, g0, |g.rules|, "");
    assert g.rules[..|g.rules|] == g.rules;
    assert Saved(g) + "" == Saved(g);
  }

  lemma MappedCons<A, B>(x: A, s: seq<A>, f: A -> B)
    ensures Mapped([x] + s, f) == [f(x)] + Mapped(s, f)
  {
    assert ([x] + s)[1..] == s;
  }

  lemma {:induction false} MappedAppend<A, B>(a: seq<A>, b: seq<A>, f: A -> B)
    ensures Mapped(a + b, f) == Mapped(a, f) + Mapped(b, f)
  {
    if a == [] {
      assert a + b == b;
    } else {
      var x, s := a[0], a[1..];
      MappedAppend(s, b, f);
      assert a == [x] + s && a + b == [x] + (s + b);
      MappedCons(x, s, f);
      MappedCons(x, s + b, f);
      assert [f(x)] + (Mapped(s, f) + Mapped(b, f)) == [f(x)] + Mapped(s, f) + Mapped(b, f);
    }
  }

  lemma SavedAround(g: Gui, n: nat)
    requires n < |g.rules|
    ensures Saved(g) == Joined(SettingLines(g) + LinesOf(g.rules[..n]))
        + (RuleLine(g.rules[n]) + "\n" + Joined(LinesOf(g.rules[n + 1..])))
  {
    var a, b := SettingLines(g) + LinesOf(g.rules[..n]), LinesOf(g.rules[n..]);
    assert g.rules == g.rules[..n] + g.rules[n..] && g.rules[n..][1..] == g.rules[n + 1..];
    MappedAppend(g.rules[..n], g.rules[n..], RuleLine);
    assert SettingLines(g) + LinesOf(g.rules) == a + b;
    JoinedAppend(a, b);
    assert b[1..] == LinesOf(g.rules[n + 1..]);
  }

  lemma {:induction false} FirstUnholdable(rules: seq<RuleData>) returns (n: nat)
    requires exists i :: 0 <= i < |rules| && !Holdable(rules[i])
    ensures n < |rules| && !Holdable(rules[n]) && forall i :: 0 <= i < n ==> Holdable(rules[i])
  {
    if Holdable(rules[0]) {
      var i :| 0 <= i < |rules| && !Holdable(rules[i]);
      assert !Holdable(rules[1..][i - 1]);
      n := FirstUnholdable(rules[1..]);
      forall j | 0 < j < n + 1
        ensures Holdable(rules[j])
      {
        assert rules[j] == rules[1..][j - 1];
      }
      n := n + 1;
    } else {
      n := 0;
    }
  }

  // ---------- a setting on several lines ----------

  /** Every text that a line of the file assigns is on one line, and stays so. */
  lemma {:induction false} LoadingKeepsOneLine(text: string, section: Section, g: Gui, key: Key)
    requires OneLine(ValueOf(g, key))
    ensures OneLine(ValueOf(Loaded(text, section, g), key))
    decreases |text|
  {
    if text != "" {
      var k := LineEnd(text);
      var line := Trimmed(text[..k]);
      var (section1, g1) := Handle(line, section, g);
      TrimmedIsPrefix(text[..k]);
      HandlingKeepsOneLine(line, section, g, key);
      LoadingKeepsOneLine(text[k..], section1, g1, key);
    }
  }

  lemma HandlingKeepsOneLine(line: string, section: Section, g: Gui, key: Key)
    requires OneLine(line) && OneLine(ValueOf(g, key))
    ensures OneLine(ValueOf(Handle(line, section, g).1, key))
  {
    var k := IndexOf(line, '=');
    if k < |line| && KeyOf(line[..k]).Some? {
      AssignedIsOneLine(g, KeyOf(line[..k]).value, line[k + 1..], key);
    }
  }

  lemma AssignedIsOneLine(g: Gui, target: Key, val: string, key: Key)
    requires OneLine(val) && (OneLine(ValueOf(g, key)) || target == key)
    ensures OneLine(ValueOf(Assign(g, target, val), key))
  {
    var g1 := Assign(g, target, val);
    NumbersHaveNoBar(g1.port);
    NumbersHaveNoBar(g1.ptype);
    FlagReads(g1.logging);
    FlagReads(g1.dns);
  }

  /** The first read of a setting assigns the first of its lines, whatever follows it. */
  lemma FirstLineAssigned(key: Key, val: string, rest: string, x: Gui)
    ensures OneLine(ValueOf(Loaded(KeyLine(NameOf(key), val) + "\n" + rest, Settings, x), key))
  {
    var head, behind := NameOf(key) + "=", val + "\n" + rest;
    var text := KeyLine(NameOf(key), val) + "\n" + rest;
    assert text == head + behind;
    KeysAreNamed(key);
    IndexOfBehind(head, behind, '\n');
    var k := LineEnd(text);
    var val1 := Trimmed(behind[..k - |head|]);
    assert text[..k] == head + behind[..k - |head|];
    TrimmedBehind(head, behind[..k - |head|]);
    TrimmedIsPrefix(behind[..k - |head|]);
    assert Trimmed(text[..k]) == KeyLine(NameOf(key), val1);
    SettingLoads(key, val1, x);
    AssignedIsOneLine(x, key, val1, key);
    LoadingKeepsOneLine(text[k..], Settings, Assign(x, key, val1), key);
  }

  lemma OnlyTextsCanBreak(g: Gui, key: Key)
    ensures OneLine(ValueOf(g, key)) || key in {Ip, User, Pass}
  {
    NumbersHaveNoBar(g.port);
    NumbersHaveNoBar(g.ptype);
    FlagReads(g.logging);
    FlagReads(g.dns);
  }

  /** The place of the first setting that is not on one line. */
  lemma FirstBrokenKey(g: Gui) returns (n: nat)
    requires !OneLineSettings(g)
    ensures n < |KEYS| && !OneLine(ValueOf(g, KEYS[n])) && forall i :: 0 <= i < n ==> OneLine(ValueOf(g, KEYS[i]))
  {
    assert KEYS == [Ip, Port, Type, User, Pass, Logging, Dns];
    n := if !OneLine(g.ip) then 0 else if !OneLine(g.user) then 3 else 4;
    forall i | 0 <= i < n
      ensures OneLine(ValueOf(g, KEYS[i]))
    {
      OnlyTextsCanBreak(g, KEYS[i]);
    }
  }

  lemma KeyLineFits(g: Gui, key: Key)
    requires Saveable(g) && OneLine(ValueOf(g, key))
    ensures OneLine(KeyLine(NameOf(key), ValueOf(g, key))) && |KeyLine(NameOf(key), ValueOf(g, key))| < LINE_BUFFER
  {
    Decimal.PrintLength(g.port, 5);
    IntLength(g.ptype);
  }

  lemma JoinedAround(lines: seq<string>, n: nat)
    requires n < |lines|
    ensures Joined(lines) == Joined(lines[..n]) + (lines[n] + "\n" + Joined(lines[n + 1..]))
  {
    assert lines == lines[..n] + lines[n..];
    JoinedAppend(lines[..n], lines[n..]);
    assert lines[n..][1..] == lines[n + 1..];
  }

  lemma KeyLineAt(g: Gui, n: nat)
    requires n < |KEYS|
    ensures var lines := SettingLines(g);
            |lines| > n + 1 && lines[n + 1] == KeyLine(NameOf(KEYS[n]), ValueOf(g, KEYS[n]))
    ensures SettingLines(g)[..n + 1] == ["[SETTINGS]"] + KeyLines(g, KEYS[..n])
  {
    SettingLinesAre(g);
  }

  /** The file as the heading and the settings before place `n`, the line of setting `n`, and the rest. */
  lemma SavedAroundKey(g: Gui, n: nat) returns (rest: string)
    requires n < |KEYS|
    ensures Saved(g) == Joined(["[SETTINGS]"] + KeyLines(g, KEYS[..n]))
                        + (KeyLine(NameOf(KEYS[n]), ValueOf(g, KEYS[n])) + "\n" + rest)
  {
    var a, b := SettingLines(g), LinesOf(g.rules);
    KeyLineAt(g, n);
    JoinedAround(a + b, n + 1);
    assert (a + b)[..n + 1] == a[..n + 1];
    rest := Joined((a + b)[n + 2..]);
  }

  /** The heading and the settings before place `n`, read back. */
  lemma LoadOfSettings(g: Gui, g0: Gui, n: nat, text: string)
    requires Saveable(g) && n <= |KEYS| && forall i :: 0 <= i < n ==> OneLine(ValueOf(g, KEYS[i]))
    ensures Loaded(Joined(["[SETTINGS]"] + KeyLines(g, KEYS[..n])) + text, Nowhere, g0)
            == Loaded(text, Settings, WithAll(g0, g, KEYS[..n]))
  {
    var keys := KeyLines(g, KEYS[..n]);
    var lines := ["[SETTINGS]"] + keys;
    forall i | 0 <= i < |lines|
      ensures OneLine(lines[i]) && |lines[i]| < LINE_BUFFER
    {
      if i > 0 {
        KeyLineFits(g, KEYS[i - 1]);
      }
    }
    LoadLines(lines, text, Nowhere, g0);
    HandleAppend(["[SETTINGS]"], keys, Nowhere, g0);
    OneHeading(g0, g0);
    KeyLinesLoad(g, KEYS[..n], g0);
  }

  lemma RestoredValue(g: Gui, g0: Gui, key: Key)
    ensures ValueOf(Restored(g, g0), key) == ValueOf(g, key)
  {
  }

  /** A setting that is not on one line is not restored, whatever the globals held before. */
  lemma BrokenSettingIsLost(g: Gui, g0: Gui)
    requires Saveable(g) && !OneLineSettings(g)
    ensures Loaded(Saved(g), Nowhere, g0) != Restored(g, g0)
  {
    var n := FirstBrokenKey(g);
    var key := KEYS[n];
    var rest := SavedAroundKey(g, n);
    LoadOfSettings(g, g0, n, KeyLine(NameOf(key), ValueOf(g, key)) + "\n" + rest);
    FirstLineAssigned(key, ValueOf(g, key), rest, WithAll(g0, g, KEYS[..n]));
    RestoredValue(g, g0, key);
  }

  // ---------- exactly what is restored ----------

  /** A rule that no line can hold keeps the file from being restored. */
  lemma UnholdableRuleBreaks(g: Gui, g0: Gui, n: nat)
    requires Saveable(g) && OneLineSettings(g)
    requires n < |g.rules| && !Holdable(g.rules[n]) && forall i :: 0 <= i < n ==> Holdable(g.rules[i])
    ensures Loaded(Saved(g), Nowhere, g0) != Restored(g, g0)
  {
    var rest := Joined(LinesOf(g.rules[n + 1..]));
    SavedAround(g, n);
    LoadOfPrefix(g, g0, n, RuleLine(g.rules[n]) + "\n" + rest);
    UnholdableRuleIsLost(g.rules[n], rest, g.(rules := g0.rules + RereadAll(g.rules[..n])));
    assert Restored(g, g0).rules[|g0.rules| + n] == Reread(g.rules[n]);
  }

  /** Loading what was saved restores every setting and the whole rule list in order exactly when no text of
      a setting holds CR or LF, no text of a rule holds a bar, CR or LF, and every rule's line fits the
      2048-byte buffer. */
  lemma LoadRestoresSavedIff(g: Gui, g0: Gui)
    requires Saveable(g)
    ensures Loaded(Saved(g), Nowhere, g0) == Restored(g, g0)
            <==> OneLineSettings(g) && forall i :: 0 <= i < |g.rules| ==> Holdable(g.rules[i])
  {
    if !OneLineSettings(g) {
      BrokenSettingIsLost(g, g0);
    } else if forall i :: 0 <= i < |g.rules| ==> Holdable(g.rules[i]) {
      LoadOfSaved(g, g0);
    } else {
      var n := FirstUnholdable(g.rules);
      UnholdableRuleBreaks(g, g0, n);
    }
  }

  /** A user name on two lines is not restored, even into globals that hold it already. */
  lemma UserOnTwoLinesIsLost(g0: Gui)
    ensures var g := Gui("", 0, 1, "a\nb", "", true, true, []); Loaded(Saved(g), Nowhere, g0) != Restored(g, g0)
  {
    var g := Gui("", 0, 1, "a\nb", "", true, true, []);
    assert g.user[1] == '\n';
    BrokenSettingIsLost(g, g0);
  }

  /** Default settings and one rule for the given hosts. */
  function OneRule(hosts: string): Gui {
    Gui("", 0, 1, "", "", true, true, [RuleData(1, 0, 0, true, Some("*"), Some(hosts), Some("*"))])
  }

  /** Hosts with a bar, hosts on two lines and hosts of 3000 characters are not restored. */
  lemma SomeRulesAreLost(g0: Gui)
    ensures Loaded(Saved(OneRule("a|b")), Nowhere, g0) != Restored(OneRule("a|b"), g0)
    ensures Loaded(Saved(OneRule("a\nb")), Nowhere, g0) != Restored(OneRule("a\nb"), g0)
    ensures var long := seq(3000, _ => 'a'); Loaded(Saved(OneRule(long)), Nowhere, g0) != Restored(OneRule(long), g0)
  {
    var long := seq(3000, _ => 'a');
    LostHosts("a|b", g0) by { assert "a|b"[1] == '|'; }
    LostHosts("a\nb", g0) by { assert "a\nb"[1] == '\n'; }
    LostHosts(long, g0);
  }

  lemma LostHosts(hosts: string, g0: Gui)
    requires !NoBar(hosts) || !OneLine(hosts) || |hosts| >= 2048
    ensures Loaded(Saved(OneRule(hosts)), Nowhere, g0) != Restored(OneRule(hosts), g0)
  {
    var g := OneRule(hosts);
    RuleLineIs(g.rules[0]);
    assert !Holdable(g.rules[0]);
    LoadRestoresSavedIff(g, g0);
  }
}
