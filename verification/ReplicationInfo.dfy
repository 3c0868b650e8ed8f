/** The INFO replication parser: a loop that overwrites fields, against a last-wins
    reading of the lines and against a printer. */
module ReplicationInfo {
  import opened Wrappers
  import Decimal

  // --------------------------------------------------------------------- text

  // unicode.IsSpace
  predicate IsSpace(c: char)
  {
    var n := c as int;
    || 0x09 <= n <= 0x0D || n == 0x20 || n == 0x85 || n == 0xA0 || n == 0x1680 || 0x2000 <= n <= 0x200A
    || n == 0x2028 || n == 0x2029 || n == 0x202F || n == 0x205F || n == 0x3000
  }

  function TrimLeft(s: string): string
  {
    if s != "" && IsSpace(s[0]) then TrimLeft(s[1..]) else s
  }

  function TrimRight(s: string): string
  {
    if s != "" && IsSpace(s[|s| - 1]) then TrimRight(s[..|s| - 1]) else s
  }

  function TrimSpace(s: string): string { TrimRight(TrimLeft(s)) }

  predicate Trimmed(s: string) { s == "" || (!IsSpace(s[0]) && !IsSpace(s[|s| - 1])) }

  const CRLF: string := "\r\n"

  // strings.Split(s, "\r\n")
  function Lines(s: string): (ls: seq<string>)
    ensures ls != []
  {
    if |s| < 2 then [s]
    else if s[0] == '\r' && s[1] == '\n' then [""] + Lines(s[2..])
    else
      var rest := Lines(s[1..]);
      [[s[0]] + rest[0]] + rest[1..]
  }

  // No line end inside.
  ghost predicate OneLine(s: string)
  {
    forall i, j :: 0 <= i < j < |s| && j == i + 1 ==> !(s[i] == '\r' && s[j] == '\n')
  }

  function Joined(ls: seq<string>): string
    requires ls != []
  {
    if |ls| == 1 then ls[0] else ls[0] + CRLF + Joined(ls[1..])
  }

  lemma {:induction false} LinesOfOne(s: string)
    requires OneLine(s)
    ensures Lines(s) == [s]
  {
    if |s| >= 2 {
      LinesOfOne(s[1..]);
      assert [s[0]] + s[1..] == s;
    }
  }

  // A character that does not start a line end goes in front of the first line.
  lemma LinesOfCons(c: char, s: string)
    requires !(c == '\r' && s != "" && s[0] == '\n')
    ensures Lines([c] + s) == [[c] + Lines(s)[0]] + Lines(s)[1..]
  {
    assert ([c] + s)[1..] == s;
  }

  lemma ConsBeforeConcat(c: char, rest: seq<string>, more: seq<string>)
    requires rest != []
    ensures [[c] + (rest + more)[0]] + (rest + more)[1..] == [[c] + rest[0]] + rest[1..] + more
  {
    assert (rest + more)[1..] == rest[1..] + more;
  }

  // Splitting commutes with joining two texts by a line end, whatever the texts are.
  lemma {:induction false} LinesOfConcat(a: string, b: string)
    ensures Lines(a + CRLF + b) == Lines(a) + Lines(b)
    decreases |a|
  {
    if a == "" {
      assert (a + CRLF + b)[2..] == b;
    } else if |a| >= 2 && a[0] == '\r' && a[1] == '\n' {
      assert (a + CRLF + b)[2..] == a[2..] + CRLF + b;
      LinesOfConcat(a[2..], b);
    } else {
      var c, t := a[0], a[1..];
      assert a == [c] + t && a + CRLF + b == [c] + (t + CRLF + b);
      LinesOfConcat(t, b);
      LinesOfCons(c, t);
      LinesOfCons(c, t + CRLF + b);
      ConsBeforeConcat(c, Lines(t), Lines(b));
    }
  }

  lemma {:induction false} LinesOfJoined(ls: seq<string>)
    requires ls != [] && forall i :: 0 <= i < |ls| ==> OneLine(ls[i])
    ensures Lines(Joined(ls)) == ls
  {
    LinesOfOne(ls[0]);
    if |ls| > 1 {
      LinesOfJoined(ls[1..]);
      LinesOfConcat(ls[0], Joined(ls[1..]));
    }
  }

  // ------------------------------------------------------------------- parsing

  datatype Info = Info(role: string, masterHost: string, masterPort: int, connectedSlaves: int, linkStatus: string)

  const EMPTY: Info := Info("", "", 0, 0, "")

  datatype Key = Role | MasterHost | MasterPort | ConnectedSlaves | LinkStatus

  function NameOf(k: Key): string
  {
    match k
    case Role => "role"
    case MasterHost => "master_host"
    case MasterPort => "master_port"
    case ConnectedSlaves => "connected_slaves"
    case LinkStatus => "master_link_status"
  }

  predicate Numeric(k: Key) { k == MasterPort || k == ConnectedSlaves }

  // A recognised setting; the part the key does not use is "" or 0.
  datatype Setting = Setting(key: Key, text: string, number: int)

  function FirstColon(s: string): (i: nat)
    ensures i <= |s| && (i < |s| ==> s[i] == ':') && forall j :: 0 <= j < i ==> s[j] != ':'
  {
    if s == "" || s[0] == ':' then 0 else 1 + FirstColon(s[1..])
  }

  function KeyNamed(name: string): Option<Key>
  {
    if name == NameOf(Role) then Some(Role)
    else if name == NameOf(MasterHost) then Some(MasterHost)
    else if name == NameOf(MasterPort) then Some(MasterPort)
    else if name == NameOf(ConnectedSlaves) then Some(ConnectedSlaves)
    else if name == NameOf(LinkStatus) then Some(LinkStatus)
    else None
  }

  // The trimmed key and value of a line; None for blank, comment and colon-less lines.
  function KeyAndValue(line: string): Option<(string, string)>
  {
    var i := FirstColon(line);
    if line == "" || line[0] == '#' || i == |line| then None
    else Some((TrimSpace(line[..i]), TrimSpace(line[i + 1..])))
  }

  // None for an unknown key and for a numeric key whose value does not parse.
  function Meaning(name: string, value: string): Option<Setting>
  {
    match KeyNamed(name)
    case None => None
    case Some(k) =>
      if !Numeric(k) then Some(Setting(k, value, 0))
      else match Decimal.Parse(value)
        case None => None
        case Some(n) => Some(Setting(k, "", n))
  }

  // What a line sets, if anything.
  function Recognised(line: string): Option<Setting>
  {
    match KeyAndValue(line) case None => None case Some((name, value)) => Meaning(name, value)
  }

  function Set(info: Info, s: Setting): Info
  {
    match s.key
    case Role => info.(role := s.text)
    case MasterHost => info.(masterHost := s.text)
    case MasterPort => info.(masterPort := s.number)
    case ConnectedSlaves => info.(connectedSlaves := s.number)
    case LinkStatus => info.(linkStatus := s.text)
  }

  function Get(info: Info, k: Key): Setting
  {
    match k
    case Role => Setting(k, info.role, 0)
    case MasterHost => Setting(k, info.masterHost, 0)
    case MasterPort => Setting(k, "", info.masterPort)
    case ConnectedSlaves => Setting(k, "", info.connectedSlaves)
    case LinkStatus => Setting(k, info.linkStatus, 0)
  }

  function SetLine(info: Info, line: string): Info
  {
    match Recognised(line) case None => info case Some(s) => Set(info, s)
  }

  function Fold(info: Info, ls: seq<string>): Info
    decreases |ls|
  {
    if ls == [] then info else Fold(SetLine(info, ls[0]), ls[1..])
  }

  function Fields(text: string): Info { Fold(EMPTY, Lines(text)) }

  function Parse(text: string): Result<Info>
  {
    if Fields(text).role == "" then Err("could not parse role from replication info") else Ok(Fields(text))
  }

  method ParseReplicationInfo(text: string) returns (r: Result<Info>)
    ensures r == Parse(text)
  {
    var lines := Lines(text);
    var result := EMPTY;
    for i := 0 to |lines|
      invariant Fields(text) == Fold(result, lines[i..])
    {
      var line := lines[i];
      assert lines[i..][0] == line && lines[i..][1..] == lines[i + 1..];
      if line == "" || line[0] == '#' {
        continue;
      }
      var colon := FirstColon(line);
      if colon == |line| {
        continue;
      }
      var key := TrimSpace(line[..colon]);
      var value := TrimSpace(line[colon + 1..]);
      if key == "role" {
        result := result.(role := value);
      } else if key == "master_host" {
        result := result.(masterHost := value);
      } else if key == "master_port" {
        var port := Decimal.Parse(value);
        if port.Some? { result := result.(masterPort := port.value); }
      } else if key == "connected_slaves" {
        var count := Decimal.Parse(value);
        if count.Some? { result := result.(connectedSlaves := count.value); }
      } else if key == "master_link_status" {
        result := result.(linkStatus := value);
      }
    }
    if result.role == "" {
      return Err("could not parse role from replication info");
    }
    return Ok(result);
  }

  // ----------------------------------------------------------------- last wins

  // The last line that sets k.
  function Last(ls: seq<string>, k: Key): Option<Setting>
  {
    if ls == [] then None
    else match Recognised(ls[|ls| - 1])
      case Some(s) => if s.key == k then Some(s) else Last(ls[..|ls| - 1], k)
      case None => Last(ls[..|ls| - 1], k)
  }

  function Or(s: Option<Setting>, otherwise: Setting): Setting { if s.Some? then s.value else otherwise }

  lemma RecognisedShape(line: string, info: Info, k: Key)
    ensures Recognised(line).Some? && Recognised(line).value.key == k ==>
              Get(Set(info, Recognised(line).value), k) == Recognised(line).value
    ensures Recognised(line).Some? && Recognised(line).value.key != k ==>
              Get(Set(info, Recognised(line).value), k) == Get(info, k)
  {
  }

  lemma {:induction false} FoldSplits(info: Info, a: seq<string>, b: seq<string>)
    ensures Fold(info, a + b) == Fold(Fold(info, a), b)
    decreases |a|
  {
    if a == [] {
      assert a + b == b;
    } else {
      assert (a + b)[1..] == a[1..] + b;
      FoldSplits(SetLine(info, a[0]), a[1..], b);
    }
  }

  // Each field holds what the last line for its key says, or what was there before.
  lemma {:induction false} LastWins(info: Info, ls: seq<string>, k: Key)
    ensures Get(Fold(info, ls), k) == Or(Last(ls, k), Get(info, k))
    decreases |ls|
  {
    if ls == [] {
    } else {
      var n := |ls| - 1;
      LastWins(info, ls[..n], k);
      assert ls == ls[..n] + [ls[n]];
      FoldSplits(info, ls[..n], [ls[n]]);
      assert [ls[n]][1..] == [] && Fold(Fold(info, ls[..n]), [ls[n]]) == SetLine(Fold(info, ls[..n]), ls[n]);
      RecognisedShape(ls[n], Fold(info, ls[..n]), k);
    }
  }

  // Two blocks joined by a line end: the second block's settings overlay the first's.
  lemma BlocksOverlay(a: string, b: string, k: Key)
    ensures Get(Fields(a + CRLF + b), k) == Or(Last(Lines(b), k), Get(Fields(a), k))
  {
    LinesOfConcat(a, b);
    FoldSplits(EMPTY, Lines(a), Lines(b));
    LastWins(Fields(a), Lines(b), k);
  }

  ghost predicate Noise(text: string)
  {
    forall i :: 0 <= i < |Lines(text)| ==> Recognised(Lines(text)[i]) == None
  }

  lemma {:induction false} NoiseFolds(info: Info, ls: seq<string>)
    requires forall i :: 0 <= i < |ls| ==> Recognised(ls[i]) == None
    ensures Fold(info, ls) == info
    decreases |ls|
  {
    if ls == [] {
    } else {
      NoiseFolds(SetLine(info, ls[0]), ls[1..]);
    }
  }

  // Unrecognised lines change nothing, at the start, at the end or in between.
  lemma NoiseIgnored(a: string, noise: string, b: string)
    requires Noise(noise)
    ensures Parse(noise + CRLF + b) == Parse(b)
    ensures Parse(a + CRLF + noise) == Parse(a)
    ensures Parse(a + CRLF + (noise + CRLF + b)) == Parse(a + CRLF + b)
  {
    var x, y, z := Lines(a), Lines(noise), Lines(b);
    LinesOfConcat(noise, b);
    LinesOfConcat(a, noise);
    LinesOfConcat(a, noise + CRLF + b);
    LinesOfConcat(a, b);
    FoldSplits(EMPTY, y, z);
    FoldSplits(EMPTY, x, y);
    FoldSplits(EMPTY, x, y + z);
    FoldSplits(Fold(EMPTY, x), y, z);
    FoldSplits(EMPTY, x, z);
    NoiseFolds(EMPTY, y);
    NoiseFolds(Fold(EMPTY, x), y);
  }

  // ----------------------------------------------------------------- round trip

  function RenderLine(k: Key, value: string): string { NameOf(k) + ":" + value }

  function RenderedLines(info: Info): seq<string>
  {
    [
      "# Replication",
      RenderLine(Role, info.role),
      RenderLine(MasterHost, info.masterHost),
      RenderLine(MasterPort, Decimal.Format(info.masterPort)),
      RenderLine(ConnectedSlaves, Decimal.Format(info.connectedSlaves)),
      RenderLine(LinkStatus, info.linkStatus),
      ""]
  }

  function Render(info: Info): string { Joined(RenderedLines(info)) }

  ghost predicate Plain(s: string) { Trimmed(s) && OneLine(s) }

  ghost predicate Renderable(info: Info)
  {
    && info.role != "" && Plain(info.role) && Plain(info.masterHost) && Plain(info.linkStatus)
    && Decimal.MIN_INT64 <= info.masterPort <= Decimal.MAX_INT64
    && Decimal.MIN_INT64 <= info.connectedSlaves <= Decimal.MAX_INT64
  }

  lemma FirstColonOf(key: string, value: string)
    requires forall i :: 0 <= i < |key| ==> key[i] != ':'
    ensures FirstColon(key + ":" + value) == |key|
  {
    var s := key + ":" + value;
    assert s[|key|] == ':' && forall i :: 0 <= i < |key| ==> s[i] == key[i];
  }

  lemma NamesArePlain(k: Key)
    ensures NameOf(k) != "" && NameOf(k)[0] != '#' && Trimmed(NameOf(k)) && KeyNamed(NameOf(k)) == Some(k)
    ensures forall i :: 0 <= i < |NameOf(k)| ==> NameOf(k)[i] != ':' && NameOf(k)[i] != '\r'
  {
  }

  lemma RenderedIsOneLine(key: string, value: string)
    requires OneLine(value) && forall i :: 0 <= i < |key| ==> key[i] != '\r'
    ensures OneLine(key + ":" + value)
  {
    var line := key + ":" + value;
    forall i, j | 0 <= i < j < |line| && j == i + 1 && line[i] == '\r' ensures line[j] != '\n' {
      assert i > |key| && line[i] == value[i - |key| - 1] && line[j] == value[j - |key| - 1];
    }
  }

  lemma RenderedLineReads(k: Key, value: string)
    requires Plain(value)
    ensures OneLine(RenderLine(k, value))
    ensures !Numeric(k) ==> Recognised(RenderLine(k, value)) == Some(Setting(k, value, 0))
    ensures Numeric(k) && Decimal.Parse(value).Some? ==>
              Recognised(RenderLine(k, value)) == Some(Setting(k, "", Decimal.Parse(value).value))
  {
    NamesArePlain(k);
    PlainLineReads(NameOf(k), value);
    RenderedIsOneLine(NameOf(k), value);
  }

  lemma PlainLineReads(key: string, value: string)
    requires key != "" && key[0] != '#' && Trimmed(key) && Trimmed(value)
    requires forall i :: 0 <= i < |key| ==> key[i] != ':'
    ensures KeyAndValue(key + ":" + value) == Some((key, value))
  {
    var line := key + ":" + value;
    FirstColonOf(key, value);
    assert line[..|key|] == key && line[|key| + 1..] == value;
  }

  lemma FormatIsPlain(n: int)
    ensures Plain(Decimal.Format(n))
  {
    Decimal.FormatChars(n);
  }

  lemma FoldStep(info: Info, ls: seq<string>)
    requires ls != []
    ensures Fold(info, ls) == Fold(SetLine(info, ls[0]), ls[1..])
  {
  }

  lemma RenderedNumberReads(k: Key, n: int)
    requires Numeric(k) && Decimal.MIN_INT64 <= n <= Decimal.MAX_INT64
    ensures OneLine(RenderLine(k, Decimal.Format(n)))
    ensures Recognised(RenderLine(k, Decimal.Format(n))) == Some(Setting(k, "", n))
  {
    FormatIsPlain(n);
    Decimal.ParseFormat(n);
    RenderedLineReads(k, Decimal.Format(n));
  }

  lemma RenderedSplits(info: Info)
    requires Renderable(info)
    ensures Lines(Render(info)) == RenderedLines(info)
  {
    HeaderIsOneLine();
    RenderedKeyIsOneLine(Role, info.role);
    RenderedKeyIsOneLine(MasterHost, info.masterHost);
    RenderedNumberIsOneLine(MasterPort, info.masterPort);
    RenderedNumberIsOneLine(ConnectedSlaves, info.connectedSlaves);
    RenderedKeyIsOneLine(LinkStatus, info.linkStatus);
    var ls := RenderedLines(info);
    SevenLines(ls[0], ls[1], ls[2], ls[3], ls[4], ls[5], ls[6]);
  }

  lemma SevenLines(a: string, b: string, c: string, d: string, e: string, f: string, g: string)
    requires OneLine(a) && OneLine(b) && OneLine(c) && OneLine(d) && OneLine(e) && OneLine(f) && OneLine(g)
    ensures Lines(Joined([a, b, c, d, e, f, g])) == [a, b, c, d, e, f, g]
  {
    LinesOfJoined([a, b, c, d, e, f, g]);
  }

  lemma HeaderIsOneLine()
    ensures OneLine("# Replication") && OneLine("")
  {
  }

  lemma RenderedNumberIsOneLine(k: Key, n: int)
    ensures OneLine(RenderLine(k, Decimal.Format(n)))
  {
    FormatIsPlain(n);
    RenderedKeyIsOneLine(k, Decimal.Format(n));
  }

  lemma RenderedKeyIsOneLine(k: Key, value: string)
    requires OneLine(value)
    ensures OneLine(RenderLine(k, value))
  {
    NamesArePlain(k);
    RenderedIsOneLine(NameOf(k), value);
  }

  lemma FiveSettings(info: Info, l1: string, l2: string, l3: string, l4: string, l5: string)
    requires Recognised(l1) == Some(Get(info, Role)) && Recognised(l2) == Some(Get(info, MasterHost))
    requires Recognised(l3) == Some(Get(info, MasterPort)) && Recognised(l4) == Some(Get(info, ConnectedSlaves))
    requires Recognised(l5) == Some(Get(info, LinkStatus))
    ensures SetLine(SetLine(SetLine(SetLine(SetLine(EMPTY, l1), l2), l3), l4), l5) == info
  {
  }

  lemma RenderedFolds(info: Info)
    requires Renderable(info)
    ensures Fold(EMPTY, RenderedLines(info)) == info
  {
    var l1, l2 := RenderLine(Role, info.role), RenderLine(MasterHost, info.masterHost);
    var l3 := RenderLine(MasterPort, Decimal.Format(info.masterPort));
    var l4 := RenderLine(ConnectedSlaves, Decimal.Format(info.connectedSlaves));
    var l5 := RenderLine(LinkStatus, info.linkStatus);
    RenderedLineReads(Role, info.role);
    RenderedLineReads(MasterHost, info.masterHost);
    RenderedNumberReads(MasterPort, info.masterPort);
    RenderedNumberReads(ConnectedSlaves, info.connectedSlaves);
    RenderedLineReads(LinkStatus, info.linkStatus);
    FoldOfSeven(l1, l2, l3, l4, l5);
    FiveSettings(info, l1, l2, l3, l4, l5);
  }

  // Parsing a rendered block gives the record back.
  lemma RoundTrip(info: Info)
    requires Renderable(info)
    ensures Parse(Render(info)) == Ok(info)
  {
    RenderedSplits(info);
    RenderedFolds(info);
  }

  lemma FoldOfSeven(l1: string, l2: string, l3: string, l4: string, l5: string)
    ensures Fold(EMPTY, ["# Replication", l1, l2, l3, l4, l5, ""]) ==
            SetLine(SetLine(SetLine(SetLine(SetLine(EMPTY, l1), l2), l3), l4), l5)
  {
    var h := "# Replication";
    var i1 := SetLine(EMPTY, l1);
    var i2 := SetLine(i1, l2);
    var i3 := SetLine(i2, l3);
    var i4 := SetLine(i3, l4);
    var i5 := SetLine(i4, l5);
    calc {
      Fold(EMPTY, [h, l1, l2, l3, l4, l5, ""]);
      {
        FoldStep(EMPTY, [h, l1, l2, l3, l4, l5, ""]);
        assert [h, l1, l2, l3, l4, l5, ""][1..] == [l1, l2, l3, l4, l5, ""];
      }
      Fold(EMPTY, [l1, l2, l3, l4, l5, ""]);
      { FoldStep(EMPTY, [l1, l2, l3, l4, l5, ""]); assert [l1, l2, l3, l4, l5, ""][1..] == [l2, l3, l4, l5, ""]; }
      Fold(i1, [l2, l3, l4, l5, ""]);
      { FoldStep(i1, [l2, l3, l4, l5, ""]); assert [l2, l3, l4, l5, ""][1..] == [l3, l4, l5, ""]; }
      Fold(i2, [l3, l4, l5, ""]);
      { FoldStep(i2, [l3, l4, l5, ""]); assert [l3, l4, l5, ""][1..] == [l4, l5, ""]; }
      Fold(i3, [l4, l5, ""]);
      { FoldStep(i3, [l4, l5, ""]); assert [l4, l5, ""][1..] == [l5, ""]; }
      Fold(i4, [l5, ""]);
      { FoldStep(i4, [l5, ""]); assert [l5, ""][1..] == [""]; }
      Fold(i5, [""]);
      { FoldStep(i5, [""]); assert [""][1..] == []; }
      i5;
    }
  }

  // ------------------------------------------------------- the texts Redis sends

  // One more line at the end of any text.
  lemma AppendedLine(a: string, line: string)
    requires OneLine(line)
    ensures Fields(a + CRLF + line) == SetLine(Fields(a), line)
    ensures Fields(line) == SetLine(EMPTY, line)
  {
    LinesOfConcat(a, line);
    LinesOfOne(line);
    FoldSplits(EMPTY, Lines(a), [line]);
    FoldStep(Fields(a), [line]);
    FoldStep(EMPTY, [line]);
    assert [line][1..] == [];
  }

  ghost predicate PlainKey(key: string)
  {
    && key != "" && key[0] != '#' && Trimmed(key)
    && forall i :: 0 <= i < |key| ==> key[i] != ':' && key[i] != '\r'
  }

  // `prefix` is a key and its colon.
  lemma KeyedLine(a: string, key: string, prefix: string, v: string)
    requires PlainKey(key) && prefix == key + ":" && Plain(v)
    ensures Fields(a + "\r\n" + prefix + v) ==
            match Meaning(key, v) case None => Fields(a) case Some(s) => Set(Fields(a), s)
    ensures Fields(prefix + v) == match Meaning(key, v) case None => EMPTY case Some(s) => Set(EMPTY, s)
  {
    var line := prefix + v;
    PlainLineReads(key, v);
    RenderedIsOneLine(key, v);
    AppendedLine(a, line);
    assert a + "\r\n" + prefix + v == a + CRLF + line;
  }

  lemma KeyTexts()
    ensures PlainKey("role") && KeyNamed("role") == Some(Role) && "role" + ":" == "role:"
    ensures PlainKey("master_host") && KeyNamed("master_host") == Some(MasterHost)
    ensures PlainKey("master_port") && KeyNamed("master_port") == Some(MasterPort)
    ensures PlainKey("connected_slaves") && KeyNamed("connected_slaves") == Some(ConnectedSlaves)
    ensures PlainKey("master_link_status") && KeyNamed("master_link_status") == Some(LinkStatus)
  {
    NamesArePlain(Role);
    NamesArePlain(MasterHost);
    NamesArePlain(MasterPort);
    NamesArePlain(ConnectedSlaves);
    NamesArePlain(LinkStatus);
  }

  // A line under a known key, after any text.
  lemma KnownKeyLine(a: string, key: string, prefix: string, k: Key, v: string)
    requires PlainKey(key) && KeyNamed(key) == Some(k) && prefix == key + ":" && Plain(v)
    ensures !Numeric(k) ==> Fields(a + "\r\n" + prefix + v) == Set(Fields(a), Setting(k, v, 0))
    ensures !Numeric(k) ==> Fields(prefix + v) == Set(EMPTY, Setting(k, v, 0))
    ensures Numeric(k) && Decimal.Parse(v).Some? ==>
              Fields(a + "\r\n" + prefix + v) == Set(Fields(a), Setting(k, "", Decimal.Parse(v).value))
    ensures Numeric(k) && Decimal.Parse(v).None? ==> Fields(a + "\r\n" + prefix + v) == Fields(a)
  {
    KeyedLine(a, key, prefix, v);
  }

  // After any text, each of the three text keys sets its own field and no other.
  lemma TextKeys(a: string, v: string)
    requires Plain(v)
    ensures Fields(a + "\r\n" + "role:" + v) == Fields(a).(role := v)
    ensures Fields(a + "\r\n" + "master_host:" + v) == Fields(a).(masterHost := v)
    ensures Fields(a + "\r\n" + "master_link_status:" + v) == Fields(a).(linkStatus := v)
    ensures Fields("role:" + v) == Info(v, "", 0, 0, "") && Fields("master_host:" + v) == Info("", v, 0, 0, "")
  {
    KeyTexts();
    KnownKeyLine(a, "role", "role:", Role, v);
    KnownKeyLine(a, "master_host", "master_host:", MasterHost, v);
    KnownKeyLine(a, "master_link_status", "master_link_status:", LinkStatus, v);
  }

  // The two numeric keys likewise, unless the value is no number: then the line is as good
  // as absent and an earlier value stands.
  lemma NumericKeys(a: string, v: string)
    requires Plain(v)
    ensures Decimal.Parse(v).Some? ==>
              && Fields(a + "\r\n" + "master_port:" + v) == Fields(a).(masterPort := Decimal.Parse(v).value)
              && Fields(a + "\r\n" + "connected_slaves:" + v) == Fields(a).(connectedSlaves := Decimal.Parse(v).value)
    ensures Decimal.Parse(v).None? ==>
              && Fields(a + "\r\n" + "master_port:" + v) == Fields(a)
              && Fields(a + "\r\n" + "connected_slaves:" + v) == Fields(a)
  {
    KeyTexts();
    KnownKeyLine(a, "master_port", "master_port:", MasterPort, v);
    KnownKeyLine(a, "connected_slaves", "connected_slaves:", ConnectedSlaves, v);
  }

  // What the replication check reads: the role, and one more line under its own name.
  lemma ReadsEachKey(r: string, v: string)
    requires r != "" && Plain(r) && Plain(v)
    ensures Parse("role:" + r) == Ok(Info(r, "", 0, 0, ""))
    ensures Parse("role:" + r + "\r\n" + "master_host:" + v) == Ok(Info(r, v, 0, 0, ""))
    ensures Parse("role:" + r + "\r\n" + "master_link_status:" + v) == Ok(Info(r, "", 0, 0, v))
    ensures Decimal.Parse(v).Some? ==>
              && Parse("role:" + r + "\r\n" + "master_port:" + v) == Ok(Info(r, "", Decimal.Parse(v).value, 0, ""))
              && Parse("role:" + r + "\r\n" + "connected_slaves:" + v) ==
                 Ok(Info(r, "", 0, Decimal.Parse(v).value, ""))
  {
    TextKeys("", r);
    TextKeys("role:" + r, v);
    NumericKeys("role:" + r, v);
  }

  lemma BadPortLeavesGoodOne(r: string, n: int, v: string)
    requires r != "" && Plain(r) && Plain(v) && Decimal.Parse(v).None?
    requires Decimal.MIN_INT64 <= n <= Decimal.MAX_INT64
    ensures Parse("role:" + r + "\r\n" + "master_port:" + Decimal.Format(n) + "\r\n" + "master_port:" + v) ==
            Ok(Info(r, "", n, 0, ""))
  {
    TextKeys("", r);
    FormatIsPlain(n);
    Decimal.ParseFormat(n);
    NumericKeys("role:" + r, Decimal.Format(n));
    NumericKeys("role:" + r + "\r\n" + "master_port:" + Decimal.Format(n), v);
  }

  lemma RoleIsRequired(v: string)
    requires Plain(v)
    ensures Parse("").Err? && Parse("master_host:" + v).Err? && Parse("role:").Err?
  {
    TextKeys("", v);
    TextKeys("", "");
    assert "role:" + "" == "role:";
    AppendedLine("", "");
  }

  // A blank line, a comment and a line without a colon are ignored after any text.
  lemma IgnoredLine(a: string, line: string)
    requires OneLine(line)
    requires line == "" || line[0] == '#' || forall i :: 0 <= i < |line| ==> line[i] != ':'
    ensures Fields(a + "\r\n" + line) == Fields(a)
  {
    AppendedLine(a, line);
  }

  // So is a line under any other key.
  lemma UnknownKey(a: string, key: string, v: string)
    requires PlainKey(key) && Plain(v)
    requires key != "role" && key != "master_host" && key != "master_port"
    requires key != "connected_slaves" && key != "master_link_status"
    ensures Fields(a + "\r\n" + (key + ":") + v) == Fields(a)
  {
    KeyedLine(a, key, key + ":", v);
  }

  predicate Blank(s: string) { forall i :: 0 <= i < |s| ==> s[i] == ' ' || s[i] == '\t' }

  lemma {:induction false} TrimsLeft(pad: string, s: string)
    requires Blank(pad) && (s == "" || !IsSpace(s[0]))
    ensures TrimLeft(pad + s) == s
  {
    if pad == "" {
      assert pad + s == s;
    } else {
      assert (pad + s)[1..] == pad[1..] + s;
      TrimsLeft(pad[1..], s);
    }
  }

  lemma {:induction false} TrimsRight(s: string, pad: string)
    requires Blank(pad) && (s == "" || !IsSpace(s[|s| - 1]))
    ensures TrimRight(s + pad) == s
  {
    if pad == "" {
      assert s + pad == s;
    } else {
      var n := |pad| - 1;
      assert (s + pad)[..|s + pad| - 1] == s + pad[..n];
      TrimsRight(s, pad[..n]);
    }
  }

  lemma TrimsPadding(left: string, s: string, right: string)
    requires Blank(left) && Blank(right) && s != "" && Trimmed(s)
    ensures TrimSpace(left + s + right) == s
  {
    assert left + s + right == left + (s + right) && (s + right)[0] == s[0];
    TrimsLeft(left, s + right);
    TrimsRight(s, right);
  }

  // Blanks around a key and its value do not matter.
  lemma PaddedLineReads(key: string, v: string, p1: string, p2: string, p3: string, p4: string)
    requires PlainKey(key) && v != "" && Trimmed(v) && Blank(p1) && Blank(p2) && Blank(p3) && Blank(p4)
    ensures KeyAndValue(p1 + key + p2 + ":" + (p3 + v + p4)) == Some((key, v))
  {
    var left, right := p1 + key + p2, p3 + v + p4;
    var line := left + ":" + right;
    FirstColonOf(left, right);
    assert line[..|left|] == left && line[|left| + 1..] == right;
    TrimsPadding(p1, key, p2);
    TrimsPadding(p3, v, p4);
  }
}
