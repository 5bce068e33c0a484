/**
The AmneziaWG configuration file, as the daemon prints it (daemon/internal/tunnel/amneziawg.go)
and as the web interface reads it back and saves it
(luci-app/htdocs/luci-static/resources/vpn-watchdog/app.js).
*/
module AwgConf {
  import opened Options
  import opened Config
  import opened Decimal
  import opened Text

  // ---- The printer ----

  /** What the template is filled with. */
  datatype ConfData = ConfData(privateKey: string, publicKey: string, presharedKey: string, endpoint: string,
                               allowedIPs: string, mtu: int, tableID: int, fwmark: nat, keepalive: int,
                               jc: int, jmin: int, jmax: int, s1: int, s2: int, h: Headers)

  function Kv(k: string, v: string): string {
    k + " = " + v
  }

  function RuleCommand(verb: string, d: ConfData): string {
    "ip rule " + verb + " fwmark " + NatText(d.fwmark) + " table " + IntText(d.tableID) + " priority 100"
  }

  /** The [Interface] section, as pairs. */
  function InterfacePairs(d: ConfData): seq<(string, string)> {
    [("PrivateKey", d.privateKey), ("Address", "10.0.0.2/32"), ("MTU", IntText(d.mtu)), ("Table", IntText(d.tableID)),
     ("Jc", IntText(d.jc)), ("Jmin", IntText(d.jmin)), ("Jmax", IntText(d.jmax)),
     ("S1", IntText(d.s1)), ("S2", IntText(d.s2)),
     ("H1", IntText(d.h.h1)), ("H2", IntText(d.h.h2)), ("H3", IntText(d.h.h3)), ("H4", IntText(d.h.h4)),
     ("PostUp", RuleCommand("add", d)), ("PreDown", RuleCommand("del", d))]
  }

  /** A line of the [Peer] section: printed or left empty, key, value. */
  type Field = (bool, string, string)

  function PeerFields(d: ConfData): seq<Field> {
    [(true, "PublicKey", d.publicKey), (d.presharedKey != "", "PresharedKey", d.presharedKey),
     (true, "AllowedIPs", d.allowedIPs), (true, "Endpoint", d.endpoint),
     (d.keepalive > 0, "PersistentKeepalive", IntText(d.keepalive))]
  }

  function FieldLine(f: Field): string {
    if f.0 then Kv(f.1, f.2) else ""
  }

  function FieldLines(fs: seq<Field>): (lines: seq<string>)
    ensures |lines| == |fs|
  {
    seq(|fs|, i requires 0 <= i < |fs| => FieldLine(fs[i]))
  }

  function KvLines(pairs: seq<(string, string)>): (lines: seq<string>)
    ensures |lines| == |pairs|
  {
    seq(|pairs|, i requires 0 <= i < |pairs| => Kv(pairs[i].0, pairs[i].1))
  }

  function FileLines(d: ConfData): seq<string> {
    ["[Interface]"] + KvLines(InterfacePairs(d)) + ["", "[Peer]"] + FieldLines(PeerFields(d))
  }

  function Render(d: ConfData): string {
    Unlines(FileLines(d))
  }

  // ---- The parser ----

  /** White space for `trim` in JavaScript. */
  predicate JsSpace(c: char) {
    c in {'\t', '\n', '\U{000B}', '\U{000C}', '\r', ' ', '\U{00A0}', '\U{1680}', '\U{2028}', '\U{2029}',
          '\U{202F}', '\U{205F}', '\U{3000}', '\U{FEFF}'} || '\U{2000}' <= c <= '\U{200A}'
  }

  function JsTrim(s: string): string {
    Trim(s, JsSpace)
  }

  datatype Section = Outside | Iface | Peer

  datatype ParseState = ParseState(section: Section, iface: map<string, string>, peer: map<string, string>)

  const START := ParseState(Outside, map[], map[])

  function Assign(st: ParseState, k: string, v: string): ParseState {
    match st.section
    case Outside => st
    case Iface => st.(iface := st.iface[k := v])
    case Peer => st.(peer := st.peer[k := v])
  }

  function ParseLine(st: ParseState, raw: string): ParseState {
    var line := JsTrim(raw);
    if line == "[Interface]" then st.(section := Iface)
    else if line == "[Peer]" then st.(section := Peer)
    else if line == "" || line[0] == '#' then st
    else
      var eq := IndexOf(line, '=');
      if eq == |line| then st else Assign(st, JsTrim(line[..eq]), JsTrim(line[eq + 1..]))
  }

  function ParseLines(st: ParseState, lines: seq<string>): ParseState {
    if lines == [] then st else ParseLine(ParseLines(st, lines[..|lines| - 1]), lines[|lines| - 1])
  }

  /** The AmneziaWG part of the form. */
  datatype ObfuscationForm = ObfuscationForm(jc: string, jmin: string, jmax: string, s1: string, s2: string,
                                             h1: string, h2: string, h3: string, h4: string)

  /** The form after an import; the obfuscation fields stay as they were for plain WireGuard. */
  datatype Form = Form(privateKey: string, publicKey: string, presharedKey: string, endpoint: string,
                       allowedIPs: string, keepalive: string, mtu: string, awg: Option<ObfuscationForm>)

  const ALL_IPS := "0.0.0.0/0, ::/0"

  /** `m[k] || dflt`: an empty text counts as missing. */
  function FieldOr(m: map<string, string>, k: string, dflt: string): string {
    if k in m && m[k] != "" then m[k] else dflt
  }

  function FillForm(st: ParseState): Form {
    Form(FieldOr(st.iface, "PrivateKey", ""), FieldOr(st.peer, "PublicKey", ""), FieldOr(st.peer, "PresharedKey", ""),
         FieldOr(st.peer, "Endpoint", ""), FieldOr(st.peer, "AllowedIPs", ALL_IPS),
         FieldOr(st.peer, "PersistentKeepalive", ""), FieldOr(st.iface, "MTU", ""),
         if "Jc" !in st.iface then None else
           Some(ObfuscationForm(FieldOr(st.iface, "Jc", ""), FieldOr(st.iface, "Jmin", ""),
                                FieldOr(st.iface, "Jmax", ""),
                                FieldOr(st.iface, "S1", ""), FieldOr(st.iface, "S2", ""),
                                FieldOr(st.iface, "H1", ""), FieldOr(st.iface, "H2", ""),
                                FieldOr(st.iface, "H3", ""), FieldOr(st.iface, "H4", ""))))
  }

  /** `parseWGConfig`, line by line. */
  method ParseWGConfig(text: string) returns (form: Form)
    ensures form == FillForm(ParseLines(START, Split(text, '\n')))
  {
    var lines := Split(text, '\n');
    var section := Outside;
    var iface: map<string, string>, peer: map<string, string> := map[], map[];
    for i := 0 to |lines|
      invariant ParseState(section, iface, peer) == ParseLines(START, lines[..i])
    {
      assert lines[..i + 1][..i] == lines[..i];
      var line := JsTrim(lines[i]);
      if line == "[Interface]" {
        section := Iface;
        continue;
      }
      if line == "[Peer]" {
        section := Peer;
        continue;
      }
      if line == "" || line[0] == '#' {
        continue;
      }
      var eq := IndexOf(line, '=');
      if eq == |line| {
        continue;
      }
      var k, v := JsTrim(line[..eq]), JsTrim(line[eq + 1..]);
      if section == Iface {
        iface := iface[k := v];
      } else if section == Peer {
        peer := peer[k := v];
      }
    }
    assert lines[..|lines|] == lines;
    form := FillForm(ParseState(section, iface, peer));
  }

  // ---- One line ----

  /** A value that survives one line: no newline inside, no white space at the ends. */
  predicate Clean(v: string) {
    !Has(v, '\n') && JsTrim(v) == v
  }

  /** A key of the file. */
  predicate KeyOk(k: string) {
    k != "" && JsTrim(k) == k && !Has(k, '=') && !Has(k, '\n') && k[0] != '#' && k[0] != '['
  }

  lemma TrimKv(k: string, v: string)
    requires KeyOk(k) && Clean(v)
    ensures JsTrim(Kv(k, v)) == if v == "" then k + " =" else Kv(k, v)
  {
    TrimmedEnds(k, JsSpace);
    TrimmedEnds(v, JsSpace);
    if v == "" {
      var s := k + " =";
      TrimmedEnds(s, JsSpace);
      TrimSpaceAtEnds(s, ' ', JsSpace);
      assert Kv(k, v) == s + [' '];
    } else {
      TrimmedEnds(Kv(k, v), JsSpace);
    }
  }

  /** A printed pair is read as that pair. */
  lemma ParseKv(st: ParseState, k: string, v: string)
    requires KeyOk(k) && Clean(v)
    ensures ParseLine(st, Kv(k, v)) == Assign(st, k, v)
  {
    TrimKv(k, v);
    var line := JsTrim(Kv(k, v));
    assert line[0] == k[0];
    var eq := |k| + 1;
    assert line[eq] == '=';
    assert forall i :: 0 <= i < |k| ==> line[i] == k[i];
    FirstAt(line, '=', eq);
    assert line[..eq] == k + [' '];
    TrimSpaceAtEnds(k, ' ', JsSpace);
    if v == "" {
      assert line[eq + 1..] == "";
    } else {
      assert line[eq + 1..] == [' '] + v;
      TrimSpaceAtEnds(v, ' ', JsSpace);
    }
  }

  lemma ParseBlank(st: ParseState)
    ensures ParseLine(st, "") == st
  {
  }

  lemma ParseHeader(st: ParseState)
    ensures ParseLine(st, "[Interface]") == st.(section := Iface)
    ensures ParseLine(st, "[Peer]") == st.(section := Peer)
  {
  }

  // ---- A section ----

  function PairMap(m: map<string, string>, pairs: seq<(string, string)>): map<string, string> {
    if pairs == [] then m else
      var p := pairs[|pairs| - 1];
      PairMap(m, pairs[..|pairs| - 1])[p.0 := p.1]
  }

  lemma {:induction false} ParseInterface(st: ParseState, pairs: seq<(string, string)>)
    requires st.section == Iface
    requires forall i :: 0 <= i < |pairs| ==> KeyOk(pairs[i].0) && Clean(pairs[i].1)
    ensures ParseLines(st, KvLines(pairs)) == st.(iface := PairMap(st.iface, pairs))
  {
    if pairs != [] {
      var n := |pairs| - 1;
      ParseInterface(st, pairs[..n]);
      assert KvLines(pairs)[..n] == KvLines(pairs[..n]);
      ParseKv(ParseLines(st, KvLines(pairs[..n])), pairs[n].0, pairs[n].1);
    }
  }

  /** With distinct keys every pair is found again. */
  lemma {:induction false} PairMapFinds(m: map<string, string>, pairs: seq<(string, string)>, i: nat)
    requires i < |pairs| && forall j :: i < j < |pairs| ==> pairs[j].0 != pairs[i].0
    ensures pairs[i].0 in PairMap(m, pairs) && PairMap(m, pairs)[pairs[i].0] == pairs[i].1
  {
    if i < |pairs| - 1 {
      PairMapFinds(m, pairs[..|pairs| - 1], i);
    }
  }

  lemma {:induction false} ParseConcat(st: ParseState, a: seq<string>, b: seq<string>)
    ensures ParseLines(st, a + b) == ParseLines(ParseLines(st, a), b)
  {
    if b == [] {
      assert a + b == a;
    } else {
      var n := |b| - 1;
      ParseConcat(st, a, b[..n]);
      assert (a + b)[..|a| + n] == a + b[..n];
    }
  }

  lemma ParseOne(st: ParseState, line: string)
    ensures ParseLines(st, [line]) == ParseLine(st, line)
  {
  }

  // ---- The printed file ----

  ghost predicate CleanData(d: ConfData) {
    Clean(d.privateKey) && Clean(d.publicKey) && Clean(d.presharedKey) && Clean(d.endpoint) && Clean(d.allowedIPs)
  }

  /** The form a printed file should fill: every field as printed. */
  function ExpectedForm(d: ConfData): Form {
    Form(d.privateKey, d.publicKey, d.presharedKey, d.endpoint,
         if d.allowedIPs == "" then ALL_IPS else d.allowedIPs,
         if d.keepalive > 0 then IntText(d.keepalive) else "", IntText(d.mtu),
         Some(ObfuscationForm(IntText(d.jc), IntText(d.jmin), IntText(d.jmax), IntText(d.s1), IntText(d.s2),
                              IntText(d.h.h1), IntText(d.h.h2), IntText(d.h.h3), IntText(d.h.h4))))
  }

  predicate Letter(c: char) {
    'a' <= c <= 'z' || 'A' <= c <= 'Z' || '0' <= c <= '9'
  }

  lemma LettersAreKey(k: string)
    requires k != "" && forall i :: 0 <= i < |k| ==> Letter(k[i])
    ensures KeyOk(k)
  {
  }

  const IFACE_KEYS: seq<string> :=
    ["PrivateKey", "Address", "MTU", "Table", "Jc", "Jmin", "Jmax", "S1", "S2", "H1", "H2", "H3", "H4", "PostUp",
     "PreDown"]

  lemma InterfaceKeysDistinct()
    ensures forall i, j :: 0 <= i < j < 15 ==> IFACE_KEYS[i] != IFACE_KEYS[j]
  {
  }

  lemma InterfaceKeyOk(i: nat)
    requires i < 15
    ensures KeyOk(IFACE_KEYS[i])
  {
    LettersAreKey(IFACE_KEYS[i]);
  }

  lemma InterfaceKeys(d: ConfData, i: nat)
    requires i < 15
    ensures InterfacePairs(d)[i].0 == IFACE_KEYS[i]
  {
  }

  lemma InterfaceKeysOk(d: ConfData)
    ensures forall i :: 0 <= i < 15 ==> InterfacePairs(d)[i].0 == IFACE_KEYS[i] && KeyOk(InterfacePairs(d)[i].0)
  {
    var ps := InterfacePairs(d);
    forall i | 0 <= i < 15
      ensures ps[i].0 == IFACE_KEYS[i] && KeyOk(ps[i].0)
    {
      InterfaceKeys(d, i);
      InterfaceKeyOk(i);
    }
  }

  lemma TextOfIntClean(n: int)
    ensures Clean(IntText(n)) && IntText(n) != ""
  {
    var t := IntText(n);
    assert forall i :: 0 <= i < |t| ==> IsDigit(t[i]) || t[i] == '-';
    TrimmedEnds(t, JsSpace);
  }

  lemma RuleCommandClean(verb: string, d: ConfData)
    requires !Has(verb, '\n')
    ensures Clean(RuleCommand(verb, d))
  {
    var t := RuleCommand(verb, d);
    TrimmedEnds(t, JsSpace);
    TextOfIntClean(d.fwmark);
    TextOfIntClean(d.tableID);
    HasConcat("ip rule ", verb, '\n');
    HasConcat("ip rule " + verb, " fwmark ", '\n');
    HasConcat("ip rule " + verb + " fwmark ", NatText(d.fwmark), '\n');
    HasConcat("ip rule " + verb + " fwmark " + NatText(d.fwmark), " table ", '\n');
    HasConcat("ip rule " + verb + " fwmark " + NatText(d.fwmark) + " table ", IntText(d.tableID), '\n');
    HasConcat("ip rule " + verb + " fwmark " + NatText(d.fwmark) + " table " + IntText(d.tableID), " priority 100",
              '\n');
  }

  lemma IntValueClean(v: string, n: int)
    requires v == IntText(n)
    ensures Clean(v)
  {
  }

  lemma AddressClean(v: string)
    requires v == "10.0.0.2/32"
    ensures Clean(v)
  {
  }

  /** The text printed at position i. */
  lemma InterfaceValue(d: ConfData, i: nat)
    requires i < 15
    ensures InterfacePairs(d)[i].1
         == if i == 0 then d.privateKey else if i == 1 then "10.0.0.2/32"
            else if i < 13 then IntText(InterfaceInt(d, i))
            else RuleCommand(if i == 13 then "add" else "del", d)
  {
  }

  lemma InterfaceValueClean(d: ConfData, i: nat, v: string)
    requires CleanData(d) && i < 15 && v == InterfacePairs(d)[i].1
    ensures Clean(v)
  {
    InterfaceValue(d, i);
    if i == 0 {
    } else if i == 1 {
      AddressClean(v);
    } else if i < 13 {
      IntValueClean(v, InterfaceInt(d, i));
    } else if i == 13 {
      RuleCommandClean("add", d);
    } else {
      RuleCommandClean("del", d);
    }
  }

  lemma InterfaceValuesClean(d: ConfData)
    requires CleanData(d)
    ensures forall i :: 0 <= i < 15 ==> Clean(InterfacePairs(d)[i].1)
  {
    var ps := InterfacePairs(d);
    forall i | 0 <= i < 15
      ensures Clean(ps[i].1)
    {
      InterfaceValueClean(d, i, ps[i].1);
    }
  }

  /** The number printed at position i of the [Interface] section. */
  function InterfaceInt(d: ConfData, i: nat): int
    requires 2 <= i < 13
  {
    if i == 2 then d.mtu else if i == 3 then d.tableID
    else if i == 4 then d.jc else if i == 5 then d.jmin else if i == 6 then d.jmax
    else if i == 7 then d.s1 else if i == 8 then d.s2
    else if i == 9 then d.h.h1 else if i == 10 then d.h.h2 else if i == 11 then d.h.h3 else d.h.h4
  }

  const PEER_KEYS: seq<string> := ["PublicKey", "PresharedKey", "AllowedIPs", "Endpoint", "PersistentKeepalive"]

  lemma PeerKeyOk(i: nat)
    requires i < 5
    ensures KeyOk(PEER_KEYS[i])
    ensures forall j :: 0 <= j < 5 && j != i ==> |PEER_KEYS[j]| != |PEER_KEYS[i]|
  {
    LettersAreKey(PEER_KEYS[i]);
  }

  /** A field that can be printed and read back. */
  predicate FieldOk(f: Field) {
    KeyOk(f.1) && Clean(f.2)
  }

  lemma PeerFieldsOk(d: ConfData)
    requires CleanData(d)
    ensures forall i :: 0 <= i < 5 ==> FieldOk(PeerFields(d)[i]) && PeerFields(d)[i].1 == PEER_KEYS[i]
  {
    TextOfIntClean(d.keepalive);
    var fs := PeerFields(d);
    forall i | 0 <= i < 5
      ensures FieldOk(fs[i]) && fs[i].1 == PEER_KEYS[i]
    {
      PeerKeyOk(i);
    }
  }

  /** Setting the fields that are printed, in order. */
  function PutAll(m: map<string, string>, fs: seq<Field>): map<string, string> {
    if fs == [] then m else
      var front, f := PutAll(m, fs[..|fs| - 1]), fs[|fs| - 1];
      if f.0 then front[f.1 := f.2] else front
  }

  lemma ParseField(st: ParseState, f: Field)
    requires st.section == Peer && FieldOk(f)
    ensures ParseLine(st, FieldLine(f)) == if f.0 then st.(peer := st.peer[f.1 := f.2]) else st
  {
    ParseKv(st, f.1, f.2);
    ParseBlank(st);
  }

  lemma {:induction false} ParseFields(st: ParseState, fs: seq<Field>)
    requires st.section == Peer && forall i :: 0 <= i < |fs| ==> FieldOk(fs[i])
    ensures ParseLines(st, FieldLines(fs)) == st.(peer := PutAll(st.peer, fs))
  {
    if fs != [] {
      var n := |fs| - 1;
      ParseFields(st, fs[..n]);
      assert FieldLines(fs)[..n] == FieldLines(fs[..n]);
      ParseField(ParseLines(st, FieldLines(fs[..n])), fs[n]);
    }
  }

  /** With distinct keys, exactly the printed fields are there. */
  lemma {:induction false} PutAllFinds(m: map<string, string>, fs: seq<Field>, i: nat)
    requires i < |fs| && fs[i].1 !in m && forall j :: 0 <= j < |fs| && j != i ==> fs[j].1 != fs[i].1
    ensures fs[i].1 in PutAll(m, fs) <==> fs[i].0
    ensures fs[i].0 ==> PutAll(m, fs)[fs[i].1] == fs[i].2
  {
    var n := |fs| - 1;
    if i < n {
      PutAllFinds(m, fs[..n], i);
    } else {
      PutAllMisses(m, fs[..n], fs[n].1);
    }
  }

  lemma {:induction false} PutAllMisses(m: map<string, string>, fs: seq<Field>, k: string)
    requires k !in m && forall j :: 0 <= j < |fs| ==> fs[j].1 != k
    ensures k !in PutAll(m, fs)
  {
    if fs != [] {
      PutAllMisses(m, fs[..|fs| - 1], k);
    }
  }

  lemma StepLine(st: ParseState, line: string, st': ParseState, rest: seq<string>)
    requires ParseLine(st, line) == st'
    ensures ParseLines(st, [line] + rest) == ParseLines(st', rest)
  {
    ParseConcat(st, [line], rest);
    ParseOne(st, line);
  }

  ghost predicate NoNewlines(lines: seq<string>) {
    forall i :: 0 <= i < |lines| ==> !Has(lines[i], '\n')
  }

  lemma PairsHaveNoNewlines(pairs: seq<(string, string)>)
    requires forall i :: 0 <= i < |pairs| ==> KeyOk(pairs[i].0) && Clean(pairs[i].1)
    ensures NoNewlines(KvLines(pairs))
  {
  }

  lemma FieldsHaveNoNewlines(fs: seq<Field>)
    requires forall i :: 0 <= i < |fs| ==> FieldOk(fs[i])
    ensures NoNewlines(FieldLines(fs))
  {
  }

  lemma NoNewlinesConcat(a: seq<string>, b: seq<string>)
    requires NoNewlines(a) && NoNewlines(b)
    ensures NoNewlines(a + b)
  {
  }

  lemma FileLinesHaveNoNewline(d: ConfData)
    requires CleanData(d)
    ensures NoNewlines(FileLines(d))
  {
    InterfaceKeysOk(d);
    InterfaceValuesClean(d);
    PairsHaveNoNewlines(InterfacePairs(d));
    PeerFieldsOk(d);
    FieldsHaveNoNewlines(PeerFields(d));
    var a, b := KvLines(InterfacePairs(d)), FieldLines(PeerFields(d));
    NoNewlinesConcat(["[Interface]"], a);
    NoNewlinesConcat(["[Interface]"] + a, ["", "[Peer]"]);
    NoNewlinesConcat(["[Interface]"] + a + ["", "[Peer]"], b);
  }

  /** Reading a printed file: the sections hold exactly the printed pairs. */
  lemma ParseFile(d: ConfData)
    requires CleanData(d)
    ensures ParseLines(START, FileLines(d) + [""])
         == ParseState(Peer, PairMap(map[], InterfacePairs(d)), PutAll(map[], PeerFields(d)))
  {
    var a, b := KvLines(InterfacePairs(d)), FieldLines(PeerFields(d));
    assert FileLines(d) + [""] == ["[Interface]"] + (a + ([""] + (["[Peer]"] + (b + [""]))));
    var st0 := START.(section := Iface);
    ParseHeader(START);
    StepLine(START, "[Interface]", st0, a + ([""] + (["[Peer]"] + (b + [""]))));
    InterfaceKeysOk(d);
    InterfaceValuesClean(d);
    ParseInterface(st0, InterfacePairs(d));
    var st1 := st0.(iface := PairMap(map[], InterfacePairs(d)));
    ParseConcat(st0, a, [""] + (["[Peer]"] + (b + [""])));
    ParseBlank(st1);
    StepLine(st1, "", st1, ["[Peer]"] + (b + [""]));
    var st2 := st1.(section := Peer);
    ParseHeader(st1);
    StepLine(st1, "[Peer]", st2, b + [""]);
    PeerFieldsOk(d);
    ParseFields(st2, PeerFields(d));
    ParseConcat(st2, b, [""]);
    var st3 := st2.(peer := PutAll(map[], PeerFields(d)));
    ParseBlank(st3);
    ParseOne(st3, "");
  }

  lemma InterfaceFields(d: ConfData)
    ensures var m := PairMap(map[], InterfacePairs(d));
      forall i :: 0 <= i < 15 ==> IFACE_KEYS[i] in m && m[IFACE_KEYS[i]] == InterfacePairs(d)[i].1
  {
    InterfaceKeysDistinct();
    InterfaceKeysOk(d);
    forall i | 0 <= i < 15
      ensures var m := PairMap(map[], InterfacePairs(d));
        IFACE_KEYS[i] in m && m[IFACE_KEYS[i]] == InterfacePairs(d)[i].1
    {
      PairMapFinds(map[], InterfacePairs(d), i);
    }
  }

  lemma PeerForm(d: ConfData, i: nat, dflt: string)
    requires CleanData(d) && i < 5
    ensures var f, m := PeerFields(d)[i], PutAll(map[], PeerFields(d));
      FieldOr(m, f.1, dflt) == if f.0 && f.2 != "" then f.2 else dflt
  {
    PeerFieldsOk(d);
    PeerKeyOk(i);
    PutAllFinds(map[], PeerFields(d), i);
  }

  lemma InterfaceForm(d: ConfData, i: nat)
    requires i < 15
    ensures FieldOr(PairMap(map[], InterfacePairs(d)), InterfacePairs(d)[i].0, "") == InterfacePairs(d)[i].1
    ensures InterfacePairs(d)[i].0 in PairMap(map[], InterfacePairs(d))
  {
    InterfaceKeysOk(d);
    InterfaceFields(d);
    assert IFACE_KEYS[i] == InterfacePairs(d)[i].0;
  }

  /**
  The parser undoes the printer: for values without newline and without white space at the ends,
  importing a printed file fills every form field with the printed value and detects AmneziaWG.
  */
  lemma ParserUndoesPrinter(d: ConfData)
    requires CleanData(d)
    ensures FillForm(ParseLines(START, Split(Render(d), '\n'))) == ExpectedForm(d)
  {
    FileLinesHaveNoNewline(d);
    SplitUnlines(FileLines(d));
    ParseFile(d);
    PeerForm(d, 0, ""); PeerForm(d, 1, ""); PeerForm(d, 2, ALL_IPS); PeerForm(d, 3, ""); PeerForm(d, 4, "");
    TextOfIntClean(d.keepalive);
    InterfaceForm(d, 0); InterfaceForm(d, 2);
    InterfaceForm(d, 4); InterfaceForm(d, 5); InterfaceForm(d, 6); InterfaceForm(d, 7); InterfaceForm(d, 8);
    InterfaceForm(d, 9); InterfaceForm(d, 10); InterfaceForm(d, 11); InterfaceForm(d, 12);
  }

  // ---- Allowed IPs ----

  /** `strings.Join(ips, ", ")`. */
  function JoinIPs(ips: seq<string>): string {
    if ips == [] then "" else if |ips| == 1 then ips[0] else ips[0] + ", " + JoinIPs(ips[1..])
  }

  /** `split(',')`, every part trimmed. */
  function SplitIPs(s: string): seq<string> {
    TrimAll(Split(s, ','))
  }

  ghost predicate CleanIPs(ips: seq<string>) {
    forall i :: 0 <= i < |ips| ==> ips[i] != "" && Clean(ips[i]) && !Has(ips[i], ',')
  }

  lemma {:induction false} JoinedClean(ips: seq<string>)
    requires CleanIPs(ips) && ips != []
    ensures Clean(JoinIPs(ips)) && JoinIPs(ips) != ""
  {
    TrimmedEnds(ips[0], JsSpace);
    if |ips| > 1 {
      JoinedClean(ips[1..]);
      var r := JoinIPs(ips[1..]);
      TrimmedEnds(r, JsSpace);
      TrimmedEnds(JoinIPs(ips), JsSpace);
      HasConcat(ips[0], ", ", '\n');
      HasConcat(ips[0] + ", ", r, '\n');
    }
  }

  lemma SplitLeadingSpace(s: string)
    requires s != "" && s[0] != ','
    ensures Split([' '] + s, ',') == [[' '] + Split(s, ',')[0]] + Split(s, ',')[1..]
  {
    var t, i := [' '] + s, IndexOf(s, ',');
    if i < |s| {
      FirstAt(t, ',', i + 1);
      assert t[..i + 1] == [' '] + s[..i] && t[i + 2..] == s[i + 1..];
    } else {
      assert IndexOf(t, ',') == |t|;
    }
  }

  function TrimAll(parts: seq<string>): (out: seq<string>)
    ensures |out| == |parts|
  {
    seq(|parts|, i requires 0 <= i < |parts| => JsTrim(parts[i]))
  }

  /** A leading space makes no difference to the trimmed parts. */
  lemma SplitIPsLeadingSpace(s: string)
    requires s != "" && s[0] != ','
    ensures SplitIPs([' '] + s) == SplitIPs(s)
  {
    SplitLeadingSpace(s);
    TrimLeft(Split(s, ',')[0]);
  }

  lemma SplitIPsFirst(a: string, rest: string)
    requires !Has(a, ',')
    ensures SplitIPs(a + [','] + rest) == [JsTrim(a)] + SplitIPs(rest)
  {
    SplitFirst(a, rest, ',');
  }

  /** The list saved from the form is the list that was joined. */
  lemma {:induction false} SplitUndoesJoin(ips: seq<string>)
    requires CleanIPs(ips) && ips != []
    ensures SplitIPs(JoinIPs(ips)) == ips
  {
    if |ips| == 1 {
      assert IndexOf(ips[0], ',') == |ips[0]|;
    } else {
      var r := JoinIPs(ips[1..]);
      SplitUndoesJoin(ips[1..]);
      JoinedClean(ips[1..]);
      assert JoinIPs(ips) == ips[0] + [','] + ([' '] + r);
      SplitIPsFirst(ips[0], [' '] + r);
      assert r[0] == ips[1..][0][0];
      assert ips[1][0] in ips[1];
      SplitIPsLeadingSpace(r);
      assert [ips[0]] + ips[1..] == ips;
    }
  }

  lemma TrimLeft(s: string)
    ensures JsTrim([' '] + s) == JsTrim(s)
  {
  }

  // ---- Printing, importing and saving ----

  /** `parseInt(text) || dflt`. */
  function IntOr(text: string, dflt: int): int {
    match ParseInt(text)
    case None => dflt
    case Some(n) => if n == 0 then dflt else n
  }

  /** The AmneziaWG object `saveConfig` builds from the form. */
  function SavedAWG(f: Form, o: ObfuscationForm): AmneziaWG {
    AmneziaWG(WireGuard(JsTrim(f.privateKey), JsTrim(f.publicKey), JsTrim(f.presharedKey), JsTrim(f.endpoint),
                        SplitIPs(f.allowedIPs), IntOr(f.keepalive, 0), []),
              IntOr(o.jc, 4), IntOr(o.jmin, 40), IntOr(o.jmax, 70), IntOr(o.s1, 0), IntOr(o.s2, 0),
              Headers(IntOr(o.h1, 0), IntOr(o.h2, 0), IntOr(o.h3, 0), IntOr(o.h4, 0)))
  }

  /** What `Up` prints for a configuration; an MTU of zero prints as 1420. */
  function DataOf(a: AmneziaWG, mtu: int, tableID: nat): ConfData {
    ConfData(a.wg.privateKey, a.wg.publicKey, a.wg.presharedKey, a.wg.endpoint, JoinIPs(a.wg.allowedIPs),
             if mtu == 0 then 1420 else mtu, tableID, tableID, a.wg.persistentKeepalive,
             a.jc, a.jmin, a.jmax, a.s1, a.s2, a.headers)
  }

  ghost predicate CleanAWG(a: AmneziaWG) {
    && Clean(a.wg.privateKey) && Clean(a.wg.publicKey) && Clean(a.wg.presharedKey) && Clean(a.wg.endpoint)
    && CleanIPs(a.wg.allowedIPs)
  }

  lemma IntOrOfText(n: int, dflt: int)
    ensures IntOr(IntText(n), dflt) == if n == 0 then dflt else n
  {
    ParseIntOfText(n);
  }

  /**
  A configuration printed by the daemon, imported and saved by the web interface comes back (its
  DNS list aside, which is not printed) exactly when no junk parameter is zero, since the save puts
  4, 40 and 70 for those, the keepalive is not negative, and there is an allowed IP.
  */
  lemma PrintImportSave(a: AmneziaWG, mtu: int, tableID: nat)
    requires CleanAWG(a)
    ensures var f := FillForm(ParseLines(START, Split(Render(DataOf(a, mtu, tableID)), '\n')));
      && f.awg.Some?
      && (SavedAWG(f, f.awg.value) == a.(wg := a.wg.(dns := []))
          <==> a.jc != 0 && a.jmin != 0 && a.jmax != 0 && a.wg.persistentKeepalive >= 0 && a.wg.allowedIPs != [])
  {
    var d := DataOf(a, mtu, tableID);
    if a.wg.allowedIPs != [] {
      JoinedClean(a.wg.allowedIPs);
      SplitUndoesJoin(a.wg.allowedIPs);
    }
    ParserUndoesPrinter(d);
    IntOrOfText(a.jc, 4); IntOrOfText(a.jmin, 40); IntOrOfText(a.jmax, 70);
    IntOrOfText(a.s1, 0); IntOrOfText(a.s2, 0);
    IntOrOfText(a.headers.h1, 0); IntOrOfText(a.headers.h2, 0);
    IntOrOfText(a.headers.h3, 0); IntOrOfText(a.headers.h4, 0);
    IntOrOfText(d.keepalive, 0);
    assert ParseInt("") == None;
  }
}
