/** How a pool is built, read off `zpool status`: `app/pool_topology.py`.
    Letter case is that of ASCII. */
module PoolTopology {
  import opened Sorting
  import opened Text

  datatype Vdev = Vdev(tier: string, name: string, redundancy: string, state: string, devices: seq<string>)

  type Topology = map<string, seq<Vdev>>

  // ------------------------------------------------------------- words and lines

  function UpperChar(c: char): char { if 'a' <= c <= 'z' then c - 'a' + 'A' else c }

  function LowerChar(c: char): char { if 'A' <= c <= 'Z' then c - 'A' + 'a' else c }

  function Upper(s: string): string { seq(|s|, i requires 0 <= i < |s| => UpperChar(s[i])) }

  function Lower(s: string): string { seq(|s|, i requires 0 <= i < |s| => LowerChar(s[i])) }

  /** Letters are told apart by 32. */
  lemma CaseOfLetters(c: char)
    ensures LowerChar(c) as int == c as int + if 65 <= c as int <= 90 then 32 else 0
    ensures UpperChar(c) as int == c as int - if 97 <= c as int <= 122 then 32 else 0
  {
  }

  const STATES: set<string> := {"ONLINE", "DEGRADED", "FAULTED", "UNAVAIL", "OFFLINE", "REMOVED", "AVAIL", "INUSE",
                                "SUSPENDED", "SPLIT"}

  lemma StatesAre(word: string)
    ensures word in STATES <==>
      word in ["ONLINE", "DEGRADED", "FAULTED", "UNAVAIL", "OFFLINE", "REMOVED", "AVAIL", "INUSE", "SUSPENDED", "SPLIT"]
  {
  }

  /** Section headers in singular and plural, and the tiers they introduce. */
  const HEADERS: map<string, string> := map["logs" := "log", "log" := "log", "cache" := "cache", "special" := "special",
                                            "dedup" := "dedup", "spares" := "spare", "spare" := "spare"]

  /** Logs and spares are also read in the plural, every tier in the singular. */
  lemma HeadersAreTiers(word: string)
    ensures word in HEADERS <==> word in ["log", "logs", "cache", "special", "dedup", "spare", "spares"]
    ensures word in ["log", "cache", "special", "dedup", "spare"] ==> HEADERS[word] == word
    ensures word == "logs" || word == "spares" ==> HEADERS[word] == word[..|word| - 1]
  {
    assert "logs"[..3] == "log" && "spares"[..5] == "spare";
  }

  /** `_indent`: leading spaces, a tab counting as four. */
  function Indent(raw: string): nat {
    if raw == [] then 0
    else if raw[0] == ' ' then 1 + Indent(raw[1..])
    else if raw[0] == '\t' then 4 + Indent(raw[1..])
    else 0
  }

  /** An optional `-<digits>` and nothing after it. */
  predicate IsSuffix(s: string) { s == [] || (s[0] == '-' && Numeric(s[1..])) }

  /** `_redundancy` */
  function Redundancy(name: string): string {
    var s := Lower(name);
    if "mirror" <= s && IsSuffix(s[6..]) then "mirror"
    else if "raidz" <= s && s[5..] != [] && '1' <= s[5] <= '3' && IsSuffix(s[6..]) then "raidz" + [s[5]]
    else if "raidz" <= s && IsSuffix(s[5..]) then "raidz1"
    else if "draid" <= s then "draid"
    else "none"
  }

  /** The word, perhaps with a dash and a number. */
  ghost predicate IsGroup(s: string, word: string) { s == word || exists d :: Numeric(d) && s == word + "-" + d }

  lemma GroupIff(s: string, word: string)
    ensures IsGroup(s, word) <==> word <= s && IsSuffix(s[|word|..])
  {
    if word <= s && IsSuffix(s[|word|..]) {
      assert s == word + s[|word|..];
      if s[|word|..] != [] {
        assert s == word + "-" + s[|word|..][1..];
      }
    }
    if d :| Numeric(d) && s == word + "-" + d {
      assert s[|word|..] == "-" + d && ("-" + d)[1..] == d;
    }
  }

  /** The name of a vdev without redundancy is none of a mirror, a raidz or a draid, in letters of either case. */
  ghost predicate IsBare(name: string) {
    var s := Lower(name);
    && !IsGroup(s, "mirror") && !IsGroup(s, "raidz") && !IsGroup(s, "raidz1") && !IsGroup(s, "raidz2")
    && !IsGroup(s, "raidz3") && !("draid" <= s)
  }

  /** What the names of vdevs stand for; a raidz without a number has single parity. */
  lemma RedundancyIff(name: string)
    ensures var s, r := Lower(name), Redundancy(name);
            && (r == "mirror" <==> IsGroup(s, "mirror"))
            && (r == "raidz1" <==> IsGroup(s, "raidz") || IsGroup(s, "raidz1"))
            && (r == "raidz2" <==> IsGroup(s, "raidz2")) && (r == "raidz3" <==> IsGroup(s, "raidz3"))
            && (r == "draid" <==> "draid" <= s) && (r == "none" <==> IsBare(name))
  {
    var s := Lower(name);
    GroupIff(s, "mirror");
    GroupIff(s, "raidz");
    GroupIff(s, "raidz1");
    GroupIff(s, "raidz2");
    GroupIff(s, "raidz3");
    RaidzWithParity(s, '1');
    RaidzWithParity(s, '2');
    RaidzWithParity(s, '3');
    assert "raidz" + ['1'] == "raidz1" && "raidz" + ['2'] == "raidz2" && "raidz" + ['3'] == "raidz3";
    assert "mirror" <= s ==> s[0] == 'm';
    assert "raidz" <= s ==> s[0] == 'r';
    assert "draid" <= s ==> s[0] == 'd';
  }

  lemma RaidzWithParity(s: string, parity: char)
    ensures "raidz" + [parity] <= s <==> "raidz" <= s && |s| > 5 && s[5] == parity
  {
    if "raidz" + [parity] <= s {
      assert ("raidz" + [parity])[5] == s[5] && "raidz" <= "raidz" + [parity];
    }
    if "raidz" <= s && |s| > 5 && s[5] == parity {
      assert s[..6] == "raidz" + [parity];
    }
  }

  /** What a line is, whatever the parser has read before it. */
  datatype Token =
    | PoolLine(pool: string)
    | ConfigLine
    | ErrorsLine
    | BlankLine
    | Row(depth: nat, name: string, state: string)

  function Classify(words: seq<string>, depth: nat): Token {
    if words == [] then BlankLine
    else if "pool:" <= words[0] && |words[0]| > 5 then PoolLine(words[0][5..])
    else if "pool:" == words[0] && |words| > 1 then PoolLine(words[1])
    else if words == ["config:"] then ConfigLine
    else if "errors:" <= words[0] then ErrorsLine
    else Row(depth, words[0], if |words| > 1 then Upper(words[1]) else "")
  }

  function TokenOf(raw: string): Token { Classify(Words(raw), Indent(raw)) }

  // ------------------------------------------------------------------ the parser

  /** The parser's variables. `open` tells whether there is a current vdev, which
      then is the last one of the pool. */
  datatype Reader = Reader(pools: Topology, pool: Option<string>, inConfig: bool, tier: string, poolIndent: Option<nat>,
                           vdevIndent: Option<nat>, open: bool)

  const START := Reader(map[], None, false, "data", None, None, false)

  /** `current["devices"].append(name)` */
  function AddDevice(vdevs: seq<Vdev>, name: string): seq<Vdev>
    requires vdevs != []
  {
    var last := vdevs[|vdevs| - 1];
    vdevs[|vdevs| - 1 := last.(devices := last.devices + [name])]
  }

  predicate Sane(r: Reader) {
    && (r.pool.Some? ==> r.pool.value in r.pools)
    && (r.open ==> r.pool.Some? && r.pools[r.pool.value] != [])
  }

  function ReadRow(r: Reader, depth: nat, name: string, state: string): (s: Reader)
    requires Sane(r) && r.pool.Some?
    ensures Sane(s)
  {
    var p := r.pool.value;
    var hasState := state in STATES;
    if name == "NAME" then r
    else if name == p && hasState && r.poolIndent.None? then r.(poolIndent := Some(depth))
    else if r.poolIndent.None? then r
    else if !hasState && Lower(name) in HEADERS then r.(tier := HEADERS[Lower(name)], open := false)
    else if !hasState then r
    else
      var indent := r.vdevIndent.GetOr(depth);
      if depth <= indent then
        var red := Redundancy(name);
        var vdev := Vdev(r.tier, name, red, state, if red != "none" then [] else [name]);
        r.(pools := r.pools[p := r.pools[p] + [vdev]], vdevIndent := Some(indent), open := true)
      else if r.open then r.(pools := r.pools[p := AddDevice(r.pools[p], name)], vdevIndent := Some(indent))
      else r.(vdevIndent := Some(indent))
  }

  function ReadToken(r: Reader, t: Token): (s: Reader)
    requires Sane(r)
    ensures Sane(s)
  {
    match t
    case PoolLine(p) =>
      Reader(if p in r.pools then r.pools else r.pools[p := []], Some(p), false, "data", None, None, false)
    case ConfigLine => r.(inConfig := true)
    case ErrorsLine => r.(inConfig := false, open := false)
    case BlankLine => r
    case Row(depth, name, state) => if r.inConfig && r.pool.Some? then ReadRow(r, depth, name, state) else r
  }

  function Read(r: Reader, tokens: seq<Token>): (s: Reader)
    requires Sane(r)
    ensures Sane(s)
    decreases |tokens|
  {
    if tokens == [] then r else Read(ReadToken(r, tokens[0]), tokens[1..])
  }

  function Tokens(lines: seq<string>): seq<Token> {
    seq(|lines|, i requires 0 <= i < |lines| => TokenOf(lines[i]))
  }

  /** `parse_topology` */
  method ParseTopology(text: string) returns (pools: Topology)
    ensures pools == Read(START, Tokens(SplitLines(text))).pools
  {
    var lines := SplitLines(text);
    ghost var tokens := Tokens(lines);
    pools := map[];
    var pool: Option<string> := None;
    var inConfig, tier, open := false, "data", false;
    var poolIndent: Option<nat>, vdevIndent: Option<nat> := None, None;
    for i := 0 to |lines|
      invariant Sane(Reader(pools, pool, inConfig, tier, poolIndent, vdevIndent, open))
      invariant Read(START, tokens) ==
                Read(Reader(pools, pool, inConfig, tier, poolIndent, vdevIndent, open), tokens[i..])
    {
      assert tokens[i..][0] == TokenOf(lines[i]) && tokens[i..][1..] == tokens[i + 1..];
      match TokenOf(lines[i])
      case PoolLine(p) =>
        pools := if p in pools then pools else pools[p := []];
        pool, inConfig, tier, poolIndent, vdevIndent, open := Some(p), false, "data", None, None, false;
      case ConfigLine => inConfig := true;
      case ErrorsLine => inConfig, open := false, false;
      case BlankLine =>
      case Row(depth, name, state) =>
        if inConfig && pool.Some? {
          pools, tier, poolIndent, vdevIndent, open :=
            TakeRow(pools, pool.value, tier, poolIndent, vdevIndent, open, depth, name, state);
        }
    }
  }

  method TakeRow(pools: Topology, pool: string, tier: string, poolIndent: Option<nat>, vdevIndent: Option<nat>,
                 open: bool, depth: nat, name: string, state: string)
    returns (pools': Topology, tier': string, poolIndent': Option<nat>, vdevIndent': Option<nat>, open': bool)
    requires Sane(Reader(pools, Some(pool), true, tier, poolIndent, vdevIndent, open))
    ensures Reader(pools', Some(pool), true, tier', poolIndent', vdevIndent', open')
         == ReadRow(Reader(pools, Some(pool), true, tier, poolIndent, vdevIndent, open), depth, name, state)
  {
    pools', tier', poolIndent', vdevIndent', open' := pools, tier, poolIndent, vdevIndent, open;
    var hasState := state in STATES;
    if name == "NAME" {
      return;
    }
    if name == pool && hasState && poolIndent.None? {
      poolIndent' := Some(depth);
      return;
    }
    if poolIndent.None? {
      return;
    }
    if !hasState && Lower(name) in HEADERS {
      tier', open' := HEADERS[Lower(name)], false;
      return;
    }
    if !hasState {
      return;
    }
    if vdevIndent.None? {
      vdevIndent' := Some(depth);
    }
    if depth <= vdevIndent'.value {
      var red := Redundancy(name);
      var vdev := Vdev(tier, name, red, state, if red != "none" then [] else [name]);
      pools', open' := pools[pool := pools[pool] + [vdev]], true;
    } else if open {
      pools' := pools[pool := AddDevice(pools[pool], name)];
    }
  }

  // ------------------------------------------------------------ zpool status

  /** One row: a name, a state some spaces further right, and whatever follows a space. */
  datatype Entry = Entry(name: string, state: string, gap: nat, tail: string)

  /** A device row; `below` are the levels it hangs deeper than the first one. */
  datatype Device = Device(entry: Entry, below: nat)

  datatype PrintedVdev = PrintedVdev(tier: string, entry: Entry, devices: seq<Device>)

  /** `preamble` is what stands between the pool's name and its configuration, `closing` what follows it. */
  datatype PrintedPool = PrintedPool(entry: Entry, preamble: seq<string>, columns: string, vdevs: seq<PrintedVdev>,
                                     errors: string, closing: seq<string>)

  function Spaces(n: nat): (s: string)
    ensures |s| == n && forall i :: 0 <= i < n ==> s[i] == ' '
  {
    seq(n, _ => ' ')
  }

  function PrintEntry(level: nat, e: Entry): string {
    "\t" + Spaces(2 * level) + (e.name + " " + (Spaces(e.gap) + (e.state + e.tail)))
  }

  function PrintDevices(devices: seq<Device>): seq<string> {
    seq(|devices|, i requires 0 <= i < |devices| => PrintEntry(2 + devices[i].below, devices[i].entry))
  }

  function HeaderOf(tier: string): string {
    if tier == "log" then "logs" else if tier == "spare" then "spares" else tier
  }

  function PrintVdev(v: PrintedVdev, tier: string): seq<string> {
    (if v.tier == tier then [] else ["\t" + HeaderOf(v.tier)]) + ([PrintEntry(1, v.entry)] + PrintDevices(v.devices))
  }

  /** A tier header is printed wherever the tier changes. */
  function PrintVdevs(vdevs: seq<PrintedVdev>): seq<string> {
    if vdevs == [] then []
    else
      var n := |vdevs| - 1;
      PrintVdevs(vdevs[..n]) + PrintVdev(vdevs[n], LastTier(vdevs[..n]))
  }

  function LastTier(vdevs: seq<PrintedVdev>): string { if vdevs == [] then "data" else vdevs[|vdevs| - 1].tier }

  function PrintPool(p: PrintedPool): seq<string> {
    ["  pool: " + p.entry.name] + p.preamble + ["config:", "", p.columns, PrintEntry(0, p.entry)]
    + PrintVdevs(p.vdevs) + ["", p.errors] + p.closing
  }

  function Print(pools: seq<PrintedPool>): seq<string> {
    if pools == [] then [] else Print(pools[..|pools| - 1]) + PrintPool(pools[|pools| - 1])
  }

  /** What the parser is to find. */
  function Shape(v: PrintedVdev): Vdev {
    Vdev(v.tier, v.entry.name, Redundancy(v.entry.name), v.entry.state,
         if Redundancy(v.entry.name) == "none" then [v.entry.name] else Names(v.devices))
  }

  function Names(devices: seq<Device>): seq<string> {
    seq(|devices|, i requires 0 <= i < |devices| => devices[i].entry.name)
  }

  function Shapes(vdevs: seq<PrintedVdev>): seq<Vdev> {
    seq(|vdevs|, i requires 0 <= i < |vdevs| => Shape(vdevs[i]))
  }

  function Layout(pools: seq<PrintedPool>): Topology {
    if pools == [] then map[]
    else Layout(pools[..|pools| - 1])[pools[|pools| - 1].entry.name := Shapes(pools[|pools| - 1].vdevs)]
  }

  /** A name that the parser cannot take for one of its own words. */
  predicate IsName(s: string) { IsWord(s) && s != "NAME" && !("pool:" <= s) && !("errors:" <= s) }

  predicate IsEntry(e: Entry) {
    IsName(e.name) && e.state in STATES && (e.tail == [] || e.tail[0] == ' ')
  }

  const TIERS: set<string> := {"data", "log", "cache", "special", "dedup", "spare"}

  /** A vdev without redundancy is a bare device. */
  predicate IsVdev(v: PrintedVdev) {
    && v.tier in TIERS && IsEntry(v.entry) && (forall d :: d in v.devices ==> IsEntry(d.entry))
    && (Redundancy(v.entry.name) == "none" ==> v.devices == [])
  }

  predicate IsNoise(line: string) { !TokenOf(line).PoolLine? && !TokenOf(line).ConfigLine? }

  /** There is no header that leads back to the data vdevs, so they come first. */
  predicate DataFirst(vdevs: seq<PrintedVdev>) {
    forall i, j :: 0 <= i < j < |vdevs| && vdevs[j].tier == "data" ==> vdevs[i].tier == "data"
  }

  predicate IsPool(p: PrintedPool) {
    && IsEntry(p.entry) && (forall v :: v in p.vdevs ==> IsVdev(v)) && DataFirst(p.vdevs)
    && (forall l :: l in p.preamble ==> IsNoise(l)) && (forall l :: l in p.closing ==> IsNoise(l))
    && TokenOf(p.errors).ErrorsLine? && Words(p.columns) != [] && Words(p.columns)[0] == "NAME"
  }

  // -------------------------------------------------------------- rows are read

  lemma UpperOfState(s: string)
    requires s in STATES
    ensures Upper(s) == s
  {
    assert forall i :: 0 <= i < |s| ==> !('a' <= s[i] <= 'z');
  }

  lemma {:induction false} IndentOfSpaces(n: nat, s: string)
    requires s == [] || (s[0] != ' ' && s[0] != '\t')
    ensures Indent(Spaces(n) + s) == n
  {
    if n == 0 {
      assert Spaces(0) + s == s;
    } else {
      assert (Spaces(n) + s)[1..] == Spaces(n - 1) + s;
      IndentOfSpaces(n - 1, s);
    }
  }

  lemma {:induction false} WordsOfState(state: string, tail: string)
    requires IsWord(state) && (tail == [] || tail[0] == ' ')
    ensures Words(state + tail) != [] && Words(state + tail)[0] == state
  {
    if tail == [] {
      assert state + tail == state;
      WordsOne(state);
    } else {
      assert state + tail == state + " " + tail[1..];
      WordsCons(state, tail[1..]);
    }
  }

  lemma StateIsWord(s: string)
    requires s in STATES
    ensures IsWord(s)
  {
  }

  lemma {:induction false} WordsOfRow(pad: string, e: Entry)
    requires AllSpaces(pad) && IsEntry(e)
    ensures var words := Words(pad + (e.name + " " + (Spaces(e.gap) + (e.state + e.tail))));
            |words| > 1 && words[0] == e.name && words[1] == e.state
  {
    var rest := Spaces(e.gap) + (e.state + e.tail);
    StateIsWord(e.state);
    WordsOfState(e.state, e.tail);
    WordsAfterSpaces(Spaces(e.gap), e.state + e.tail);
    WordsCons(e.name, rest);
    WordsAfterSpaces(pad, e.name + " " + rest);
  }

  lemma RowIsRead(level: nat, e: Entry)
    requires IsEntry(e)
    ensures TokenOf(PrintEntry(level, e)) == Row(4 + 2 * level, e.name, e.state)
  {
    var row := e.name + " " + (Spaces(e.gap) + (e.state + e.tail));
    WordsOfRow("\t" + Spaces(2 * level), e);
    UpperOfState(e.state);
    assert row[0] == e.name[0] && !IsSpace(row[0]);
    IndentOfSpaces(2 * level, row);
    assert PrintEntry(level, e)[1..] == Spaces(2 * level) + row;
    ClassifyRow(Words(PrintEntry(level, e)), Indent(PrintEntry(level, e)), e.name, e.state);
  }

  lemma ClassifyRow(words: seq<string>, depth: nat, name: string, state: string)
    requires |words| > 1 && words[0] == name && words[1] == state && IsName(name) && Upper(state) == state
    ensures Classify(words, depth) == Row(depth, name, state)
  {
  }

  lemma {:induction false} ReadConcat(r: Reader, a: seq<Token>, b: seq<Token>)
    requires Sane(r)
    ensures Read(r, a + b) == Read(Read(r, a), b)
    decreases |a|
  {
    if a == [] {
      assert a + b == b;
    } else {
      assert (a + b)[1..] == a[1..] + b;
      ReadConcat(ReadToken(r, a[0]), a[1..], b);
    }
  }

  lemma {:induction false} ReadOne(r: Reader, t: Token)
    requires Sane(r)
    ensures Read(r, [t]) == ReadToken(r, t)
  {
    assert [t][1..] == [];
  }

  lemma HeaderWord(tier: string)
    requires tier in TIERS && tier != "data"
    ensures var h := HeaderOf(tier); IsName(h) && Lower(h) == h && h in HEADERS && HEADERS[h] == tier && h != "config:"
  {
    assert tier == "log" || tier == "cache" || tier == "special" || tier == "dedup" || tier == "spare";
    var h := HeaderOf(tier);
    assert h == "logs" || h == "cache" || h == "special" || h == "dedup" || h == "spares";
    assert forall i :: 0 <= i < |h| ==> 'a' <= h[i] <= 'z';
    assert "pool:"[4] == ':' && "errors:"[6] == ':';
  }

  lemma ClassifyHeader(words: seq<string>, depth: nat, h: string)
    requires words == [h] && IsName(h) && h != "config:"
    ensures Classify(words, depth) == Row(depth, h, "")
  {
  }

  lemma HeaderIsRow(tier: string)
    requires tier in TIERS && tier != "data"
    ensures TokenOf("\t" + HeaderOf(tier)) == Row(4, HeaderOf(tier), "")
  {
    var h := HeaderOf(tier);
    HeaderWord(tier);
    WordsOne(h);
    WordsAfterSpaces("\t", h);
    assert ("\t" + h)[1..] == h && !IsSpace(h[0]);
    assert Indent("\t" + h) == 4 && Words("\t" + h) == [h];
    ClassifyHeader(Words("\t" + h), 4, h);
  }

  lemma PoolLineIsRead(name: string)
    requires IsWord(name)
    ensures TokenOf("  pool: " + name) == PoolLine(name)
  {
    assert "  pool: " + name == "  " + ("pool:" + " " + name);
    WordsAfterSpaces("  ", "pool:" + " " + name);
    WordsCons("pool:", name);
    WordsOne(name);
    ClassifyPool(Words("  pool: " + name), Indent("  pool: " + name), name);
  }

  lemma ClassifyPool(words: seq<string>, depth: nat, name: string)
    requires words == ["pool:", name]
    ensures Classify(words, depth) == PoolLine(name)
  {
  }

  // ------------------------------------------------------- the printed tokens

  function DeviceTokens(devices: seq<Device>): seq<Token> {
    seq(|devices|, i requires 0 <= i < |devices| =>
      Row(8 + 2 * devices[i].below, devices[i].entry.name, devices[i].entry.state))
  }

  function VdevTokens(v: PrintedVdev, tier: string): seq<Token> {
    (if v.tier == tier then [] else [Row(4, HeaderOf(v.tier), "")])
    + ([Row(6, v.entry.name, v.entry.state)] + DeviceTokens(v.devices))
  }

  function VdevsTokens(vdevs: seq<PrintedVdev>): seq<Token> {
    if vdevs == [] then []
    else
      var n := |vdevs| - 1;
      VdevsTokens(vdevs[..n]) + VdevTokens(vdevs[n], LastTier(vdevs[..n]))
  }

  /** What stands between the pool's name and its own row, and after its vdevs. */
  function OpeningTokens(e: Entry, columns: string): seq<Token> {
    [ConfigLine, BlankLine, TokenOf(columns), Row(4, e.name, e.state)]
  }

  function HeadTokens(p: PrintedPool): seq<Token> {
    [PoolLine(p.entry.name)] + Tokens(p.preamble) + OpeningTokens(p.entry, p.columns)
  }

  function PoolTokens(p: PrintedPool): seq<Token> {
    HeadTokens(p) + VdevsTokens(p.vdevs) + [BlankLine, ErrorsLine] + Tokens(p.closing)
  }

  lemma TokensConcat(a: seq<string>, b: seq<string>)
    ensures Tokens(a + b) == Tokens(a) + Tokens(b)
  {
  }

  lemma VdevPrinted(v: PrintedVdev, tier: string)
    requires IsVdev(v) && (v.tier == "data" ==> tier == "data")
    ensures Tokens(PrintVdev(v, tier)) == VdevTokens(v, tier)
  {
    forall i | 0 <= i < |v.devices| ensures Tokens(PrintDevices(v.devices))[i] == DeviceTokens(v.devices)[i] {
      assert v.devices[i] in v.devices;
      RowIsRead(2 + v.devices[i].below, v.devices[i].entry);
    }
    assert Tokens(PrintDevices(v.devices)) == DeviceTokens(v.devices);
    RowIsRead(1, v.entry);
    var first := if v.tier == tier then [] else ["\t" + HeaderOf(v.tier)];
    TokensConcat(first, [PrintEntry(1, v.entry)] + PrintDevices(v.devices));
    TokensConcat([PrintEntry(1, v.entry)], PrintDevices(v.devices));
    if v.tier != tier {
      HeaderIsRow(v.tier);
      assert Tokens(first) == [Row(4, HeaderOf(v.tier), "")];
    }
    assert Tokens([PrintEntry(1, v.entry)]) == [Row(6, v.entry.name, v.entry.state)];
  }

  /** A vdev can follow the ones before it. */
  lemma LastIsInOrder(vdevs: seq<PrintedVdev>)
    requires DataFirst(vdevs) && vdevs != []
    ensures var n := |vdevs| - 1;
            DataFirst(vdevs[..n]) && (vdevs[n].tier == "data" ==> LastTier(vdevs[..n]) == "data")
  {
    var n := |vdevs| - 1;
    assert forall i :: 0 <= i < n ==> vdevs[..n][i] == vdevs[i];
  }

  lemma {:induction false} VdevsPrinted(vdevs: seq<PrintedVdev>)
    requires (forall v :: v in vdevs ==> IsVdev(v)) && DataFirst(vdevs)
    ensures Tokens(PrintVdevs(vdevs)) == VdevsTokens(vdevs)
  {
    if vdevs != [] {
      var n := |vdevs| - 1;
      LastIsInOrder(vdevs);
      VdevsPrinted(vdevs[..n]);
      VdevPrinted(vdevs[n], LastTier(vdevs[..n]));
      TokensConcat(PrintVdevs(vdevs[..n]), PrintVdev(vdevs[n], LastTier(vdevs[..n])));
    }
  }

  lemma ConfigIsRead()
    ensures TokenOf("config:") == ConfigLine
  {
    WordsOne("config:");
  }

  lemma TokensOfOpening(config: string, blank: string, columns: string, row: string, e: Entry)
    requires TokenOf(config) == ConfigLine && TokenOf(blank) == BlankLine && TokenOf(row) == Row(4, e.name, e.state)
    ensures Tokens([config, blank, columns, row]) == OpeningTokens(e, columns)
  {
  }

  lemma OpeningPrinted(e: Entry, columns: string)
    requires IsEntry(e)
    ensures Tokens(["config:", "", columns, PrintEntry(0, e)]) == OpeningTokens(e, columns)
  {
    ConfigIsRead();
    RowIsRead(0, e);
    TokensOfOpening("config:", "", columns, PrintEntry(0, e), e);
  }

  lemma PoolPrinted(p: PrintedPool)
    requires IsPool(p)
    ensures Tokens(PrintPool(p)) == PoolTokens(p)
  {
    var a, b, c := ["  pool: " + p.entry.name], p.preamble, ["config:", "", p.columns, PrintEntry(0, p.entry)];
    var d, e := PrintVdevs(p.vdevs), ["", p.errors];
    PoolLineIsRead(p.entry.name);
    OpeningPrinted(p.entry, p.columns);
    VdevsPrinted(p.vdevs);
    assert TokenOf("") == BlankLine;
    TokensConcat(a, b);
    TokensConcat(a + b, c);
    TokensConcat(a + b + c, d);
    TokensConcat(a + b + c + d, e);
    TokensConcat(a + b + c + d + e, p.closing);
    assert Tokens(a) == [PoolLine(p.entry.name)] && Tokens(e) == [BlankLine, ErrorsLine];
  }

  // ------------------------------------------------------- a pool is read back

  /** The reader stands below the pool's own line, with these vdevs found so far. */
  ghost predicate Inside(r: Reader, p: string, tier: string, vdevs: seq<Vdev>) {
    && Sane(r) && r.inConfig && r.pool == Some(p) && r.poolIndent == Some(4)
    && (r.vdevIndent == None || r.vdevIndent == Some(6))
    && r.tier == tier && p in r.pools && r.pools[p] == vdevs
  }

  /** Everything but this pool is as before. */
  ghost predicate OthersKept(before: Topology, after: Topology, p: string) {
    p in after && after == before[p := after[p]]
  }

  function WithDevices(v: Vdev, names: seq<string>): Vdev { v.(devices := v.devices + names) }

  lemma DeviceIsRead(r: Reader, p: string, tier: string, vdevs: seq<Vdev>, d: Device)
    requires Inside(r, p, tier, vdevs) && vdevs != [] && r.open && r.vdevIndent == Some(6) && IsEntry(d.entry)
    ensures ReadToken(r, Row(8 + 2 * d.below, d.entry.name, d.entry.state))
         == r.(pools := r.pools[p := AddDevice(vdevs, d.entry.name)])
  {
  }

  lemma {:induction false} DevicesAreRead(r: Reader, p: string, tier: string, done: seq<Vdev>, last: Vdev,
                                          devices: seq<Device>)
    requires Inside(r, p, tier, done + [last]) && r.open && r.vdevIndent == Some(6)
    requires forall d :: d in devices ==> IsEntry(d.entry)
    ensures Read(r, DeviceTokens(devices)) == r.(pools := r.pools[p := done + [WithDevices(last, Names(devices))]])
    decreases |devices|
  {
    if devices == [] {
      assert last.devices + Names(devices) == last.devices;
    } else {
      var d := devices[0];
      DeviceIsRead(r, p, tier, done + [last], d);
      var next := WithDevices(last, [d.entry.name]);
      var s := r.(pools := r.pools[p := done + [next]]);
      assert AddDevice(done + [last], d.entry.name) == done + [next];
      assert DeviceTokens(devices)[1..] == DeviceTokens(devices[1..]);
      DevicesAreRead(s, p, tier, done, next, devices[1..]);
      assert Names(devices) == [d.entry.name] + Names(devices[1..]);
      assert WithDevices(next, Names(devices[1..])) == WithDevices(last, Names(devices));
    }
  }

  lemma {:induction false} BodyIsRead(r: Reader, p: string, vdevs: seq<Vdev>, v: PrintedVdev)
    requires Inside(r, p, v.tier, vdevs) && IsVdev(v)
    ensures var s := Read(r, [Row(6, v.entry.name, v.entry.state)] + DeviceTokens(v.devices));
            Inside(s, p, v.tier, vdevs + [Shape(v)]) && OthersKept(r.pools, s.pools, p)
  {
    var head := Row(6, v.entry.name, v.entry.state);
    var s := ReadToken(r, head);
    var red := Redundancy(v.entry.name);
    var fresh_ := Vdev(v.tier, v.entry.name, red, v.entry.state, if red != "none" then [] else [v.entry.name]);
    assert s.pools[p] == vdevs + [fresh_];
    assert ([head] + DeviceTokens(v.devices))[1..] == DeviceTokens(v.devices);
    DevicesAreRead(s, p, v.tier, vdevs, fresh_, v.devices);
    assert WithDevices(fresh_, Names(v.devices)) == Shape(v);
  }

  lemma {:induction false} VdevIsRead(r: Reader, p: string, tier: string, vdevs: seq<Vdev>, v: PrintedVdev)
    requires Inside(r, p, tier, vdevs) && IsVdev(v) && (v.tier == "data" ==> tier == "data")
    ensures var s := Read(r, VdevTokens(v, tier));
            Inside(s, p, v.tier, vdevs + [Shape(v)]) && OthersKept(r.pools, s.pools, p)
  {
    var body := [Row(6, v.entry.name, v.entry.state)] + DeviceTokens(v.devices);
    if v.tier == tier {
      assert [] + body == body;
      BodyIsRead(r, p, vdevs, v);
    } else {
      var header := [Row(4, HeaderOf(v.tier), "")];
      HeaderWord(v.tier);
      ReadOne(r, header[0]);
      NoState();
      ReadConcat(r, header, body);
      BodyIsRead(Read(r, header), p, vdevs, v);
    }
  }

  lemma NoState()
    ensures "" !in STATES
  {
  }

  lemma {:induction false} VdevsAreRead(r: Reader, p: string, vdevs: seq<PrintedVdev>)
    requires Inside(r, p, "data", []) && (forall v :: v in vdevs ==> IsVdev(v)) && DataFirst(vdevs)
    ensures var s := Read(r, VdevsTokens(vdevs));
            Inside(s, p, LastTier(vdevs), Shapes(vdevs)) && OthersKept(r.pools, s.pools, p)
    decreases |vdevs|
  {
    if vdevs != [] {
      var n := |vdevs| - 1;
      LastIsInOrder(vdevs);
      VdevsAreRead(r, p, vdevs[..n]);
      ReadConcat(r, VdevsTokens(vdevs[..n]), VdevTokens(vdevs[n], LastTier(vdevs[..n])));
      VdevIsRead(Read(r, VdevsTokens(vdevs[..n])), p, LastTier(vdevs[..n]), Shapes(vdevs[..n]), vdevs[n]);
      ShapesNext(vdevs);
    }
  }

  lemma ShapesNext(vdevs: seq<PrintedVdev>)
    requires vdevs != []
    ensures Shapes(vdevs) == Shapes(vdevs[..|vdevs| - 1]) + [Shape(vdevs[|vdevs| - 1])]
  {
  }

  predicate IsQuiet(t: Token) { !t.PoolLine? && !t.ConfigLine? }

  lemma {:induction false} NoiseIsSkipped(r: Reader, tokens: seq<Token>)
    requires Sane(r) && !r.inConfig && forall i :: 0 <= i < |tokens| ==> IsQuiet(tokens[i])
    ensures Read(r, tokens) == r.(open := Read(r, tokens).open)
    decreases |tokens|
  {
    if tokens != [] {
      assert IsQuiet(tokens[0]);
      NoiseIsSkipped(ReadToken(r, tokens[0]), tokens[1..]);
    }
  }

  /** A fresh pool whose own row is next. */
  ghost predicate Announced(r: Reader, p: string) {
    && Sane(r) && r.pool == Some(p) && !r.inConfig && r.poolIndent == None && r.vdevIndent == None && r.tier == "data"
    && r.pools[p] == []
  }

  lemma {:induction false} OpeningIsRead(r: Reader, e: Entry, column: Token)
    requires Announced(r, e.name) && IsEntry(e) && column.Row? && column.name == "NAME"
    ensures var s := Read(r, [ConfigLine, BlankLine, column, Row(4, e.name, e.state)]);
            Inside(s, e.name, "data", []) && s.pools == r.pools
  {
    ReadFour(r, ConfigLine, BlankLine, column, Row(4, e.name, e.state));
  }

  lemma {:induction false} ReadFour(r: Reader, a: Token, b: Token, c: Token, d: Token)
    requires Sane(r)
    ensures Read(r, [a, b, c, d]) == ReadToken(ReadToken(ReadToken(ReadToken(r, a), b), c), d)
  {
    assert [a, b, c, d] == [a] + ([b] + ([c] + [d]));
    ReadConcat(r, [a], [b] + ([c] + [d]));
    ReadOne(r, a);
    ReadConcat(ReadToken(r, a), [b], [c] + [d]);
    ReadOne(ReadToken(r, a), b);
    ReadConcat(ReadToken(ReadToken(r, a), b), [c], [d]);
    ReadOne(ReadToken(ReadToken(r, a), b), c);
    ReadOne(ReadToken(ReadToken(ReadToken(r, a), b), c), d);
  }

  lemma {:induction false} ClosingIsRead(r: Reader, closing: seq<Token>)
    requires Sane(r) && forall i :: 0 <= i < |closing| ==> IsQuiet(closing[i])
    ensures Read(r, [BlankLine, ErrorsLine] + closing).pools == r.pools
  {
    ReadConcat(r, [BlankLine, ErrorsLine], closing);
    assert [BlankLine, ErrorsLine][1..] == [ErrorsLine];
    ReadOne(r, ErrorsLine);
    NoiseIsSkipped(Read(r, [BlankLine, ErrorsLine]), closing);
  }

  lemma {:induction false} AnnouncementIsRead(r: Reader, p: string, preamble: seq<Token>)
    requires Sane(r) && p !in r.pools && forall i :: 0 <= i < |preamble| ==> IsQuiet(preamble[i])
    ensures var s := Read(r, [PoolLine(p)] + preamble); Announced(s, p) && s.pools == r.pools[p := []]
  {
    ReadConcat(r, [PoolLine(p)], preamble);
    ReadOne(r, PoolLine(p));
    NoiseIsSkipped(Read(r, [PoolLine(p)]), preamble);
  }

  lemma QuietNoise(lines: seq<string>)
    requires forall l :: l in lines ==> IsNoise(l)
    ensures forall i :: 0 <= i < |Tokens(lines)| ==> IsQuiet(Tokens(lines)[i])
  {
    forall i | 0 <= i < |Tokens(lines)| ensures IsQuiet(Tokens(lines)[i]) {
      assert lines[i] in lines;
    }
  }

  lemma {:induction false} ColumnsAreRow(columns: string)
    requires Words(columns) != [] && Words(columns)[0] == "NAME"
    ensures TokenOf(columns).Row? && TokenOf(columns).name == "NAME"
  {
  }

  /** The lines of one pool up to its own row. */
  lemma {:induction false} HeadIsRead(r: Reader, e: Entry, preamble: seq<Token>, columns: string)
    requires Sane(r) && IsEntry(e) && e.name !in r.pools && forall i :: 0 <= i < |preamble| ==> IsQuiet(preamble[i])
    requires Words(columns) != [] && Words(columns)[0] == "NAME"
    ensures var s := Read(r, [PoolLine(e.name)] + preamble + OpeningTokens(e, columns));
            Inside(s, e.name, "data", []) && s.pools == r.pools[e.name := []]
  {
    ReadConcat(r, [PoolLine(e.name)] + preamble, OpeningTokens(e, columns));
    AnnouncementIsRead(r, e.name, preamble);
    ColumnsAreRow(columns);
    OpeningIsRead(Read(r, [PoolLine(e.name)] + preamble), e, TokenOf(columns));
  }

  /** The vdevs and what follows them. */
  lemma {:induction false} RestIsRead(s: Reader, p: string, vdevs: seq<PrintedVdev>, closing: seq<Token>)
    requires Inside(s, p, "data", []) && (forall v :: v in vdevs ==> IsVdev(v)) && DataFirst(vdevs)
    requires forall i :: 0 <= i < |closing| ==> IsQuiet(closing[i])
    ensures Read(s, VdevsTokens(vdevs) + ([BlankLine, ErrorsLine] + closing)).pools == s.pools[p := Shapes(vdevs)]
  {
    ReadConcat(s, VdevsTokens(vdevs), [BlankLine, ErrorsLine] + closing);
    VdevsAreRead(s, p, vdevs);
    ClosingIsRead(Read(s, VdevsTokens(vdevs)), closing);
  }

  lemma {:induction false} HeadOfPoolIsRead(r: Reader, p: PrintedPool)
    requires Sane(r) && IsPool(p) && p.entry.name !in r.pools
    ensures var s := Read(r, HeadTokens(p));
            Inside(s, p.entry.name, "data", []) && s.pools == r.pools[p.entry.name := []]
  {
    QuietNoise(p.preamble);
    HeadIsRead(r, p.entry, Tokens(p.preamble), p.columns);
  }

  lemma {:induction false} PoolIsRead(r: Reader, p: PrintedPool)
    requires Sane(r) && IsPool(p) && p.entry.name !in r.pools
    ensures Read(r, PoolTokens(p)).pools == r.pools[p.entry.name := Shapes(p.vdevs)]
  {
    HeadOfPoolIsRead(r, p);
    QuietNoise(p.closing);
    var head := HeadTokens(p);
    var rest := VdevsTokens(p.vdevs) + ([BlankLine, ErrorsLine] + Tokens(p.closing));
    RestIsRead(Read(r, head), p.entry.name, p.vdevs, Tokens(p.closing));
    Regroup(head, VdevsTokens(p.vdevs), [BlankLine, ErrorsLine], Tokens(p.closing));
    ReadConcat(r, head, rest);
    PutTwice(r.pools, p.entry.name, [], Shapes(p.vdevs));
  }

  lemma Regroup(a: seq<Token>, b: seq<Token>, c: seq<Token>, d: seq<Token>)
    ensures a + b + c + d == a + (b + (c + d))
  {
  }

  lemma PutTwice(m: Topology, p: string, a: seq<Vdev>, b: seq<Vdev>)
    ensures m[p := a][p := b] == m[p := b]
  {
  }

  lemma {:induction false} LayoutKeys(pools: seq<PrintedPool>)
    ensures Layout(pools).Keys == set p | p in pools :: p.entry.name
  {
    if pools != [] {
      var n := |pools| - 1;
      LayoutKeys(pools[..n]);
      assert pools == pools[..n] + [pools[n]];
    }
  }

  lemma OneMorePool(lines: seq<string>, p: PrintedPool)
    requires IsPool(p) && p.entry.name !in Read(START, Tokens(lines)).pools
    ensures Read(START, Tokens(lines + PrintPool(p))).pools ==
            Read(START, Tokens(lines)).pools[p.entry.name := Shapes(p.vdevs)]
  {
    PoolPrinted(p);
    TokensConcat(lines, PrintPool(p));
    ReadConcat(START, Tokens(lines), PoolTokens(p));
    PoolIsRead(Read(START, Tokens(lines)), p);
  }

  lemma {:induction false} LayoutIsRead(pools: seq<PrintedPool>)
    requires forall p :: p in pools ==> IsPool(p)
    requires forall i, j :: 0 <= i < j < |pools| ==> pools[i].entry.name != pools[j].entry.name
    ensures Read(START, Tokens(Print(pools))).pools == Layout(pools)
  {
    if pools != [] {
      var n := |pools| - 1;
      assert forall i :: 0 <= i < n ==> pools[..n][i] == pools[i];
      LayoutIsRead(pools[..n]);
      LayoutKeys(pools[..n]);
      OneMorePool(Print(pools[..n]), pools[n]);
    }
  }

  /** Printing any layout in the form of `zpool status` and parsing it gives the layout back. */
  lemma {:induction false} LayoutRoundTrip(pools: seq<PrintedPool>)
    requires forall p :: p in pools ==> IsPool(p)
    requires forall i, j :: 0 <= i < j < |pools| ==> pools[i].entry.name != pools[j].entry.name
    requires forall l :: l in Print(pools) ==> NoBreaks(l)
    ensures Read(START, Tokens(SplitLines(Unlines(Print(pools))))).pools == Layout(pools)
  {
    SplitUnlines(Print(pools));
    LayoutIsRead(pools);
  }

  // ----------------------------------------------------------------- the findings

  datatype Severity = Crit | Warn

  /** A fatal finding is the loss of the pool, any other one the loss of the last synchronous writes. */
  datatype Finding = Finding(pool: string, vdev: string, tier: string, severity: Severity)

  predicate IsFatal(tier: string) { tier == "data" || tier == "special" || tier == "dedup" }

  function FindingOf(pool: string): Vdev -> Option<Finding> {
    (v: Vdev) =>
      if v.redundancy != "none" || v.tier == "cache" || v.tier == "spare" then None
      else Some(Finding(pool, v.name, v.tier, if IsFatal(v.tier) then Crit else Warn))
  }

  function FindingsOf(keys: seq<string>, t: Topology): seq<Finding> {
    if keys == [] then []
    else
      var k := keys[|keys| - 1];
      FindingsOf(keys[..|keys| - 1], t) + if k in t then Collect(FindingOf(k), t[k]) else []
  }

  /** The keys of the dictionary, each once, in ascending order. */
  ghost predicate SortedKeys(keys: seq<string>, t: Topology) {
    && SortedBy(StringLe, keys) && Distinct(keys)
    && forall k :: k in keys <==> k in t
  }

  method KeysInOrder(t: Topology) returns (keys: seq<string>)
    ensures SortedKeys(keys, t)
  {
    var left := t.Keys;
    keys := [];
    while left != {}
      invariant left <= t.Keys && (forall k :: k in keys <==> k in t.Keys - left)
      invariant Distinct(keys)
      decreases left
    {
      var k :| k in left;
      ghost var before := keys;
      keys, left := keys + [k], left - {k};
      assert forall x :: x in keys <==> x in before || x == k;
    }
    StringLeOrders();
    SortIsSorted(StringLe, keys);
    SortKeepsElements(StringLe, keys);
    SortDistinct(StringLe, keys);
    keys := Sort(StringLe, keys);
  }

  /** `redundancy_findings` */
  method RedundancyFindings(t: Topology) returns (out: seq<Finding>)
    ensures exists keys :: SortedKeys(keys, t) && out == FindingsOf(keys, t)
  {
    var order := KeysInOrder(t);
    out := [];
    for i := 0 to |order|
      invariant out == FindingsOf(order[..i], t)
    {
      assert order[..i + 1][..i] == order[..i] && order[i] in t;
      var here := FindingsIn(order[i], t[order[i]]);
      out := out + here;
    }
    assert order[..|order|] == order;
  }

  /** The inner loop, over the vdevs of one pool. */
  method FindingsIn(pool: string, vdevs: seq<Vdev>) returns (out: seq<Finding>)
    ensures out == Collect(FindingOf(pool), vdevs)
  {
    out := [];
    for j := 0 to |vdevs|
      invariant out == Collect(FindingOf(pool), vdevs[..j])
    {
      CollectNext(FindingOf(pool), vdevs, j);
      out := out + Maybe(FindingOf(pool)(vdevs[j]));
    }
    assert vdevs[..|vdevs|] == vdevs;
  }

  ghost predicate FoundAt(t: Topology, k: string, v: Vdev, f: Finding) {
    k in t && v in t[k] && FindingOf(k)(v) == Some(f)
  }

  lemma {:induction false} FindingsMember(keys: seq<string>, t: Topology, f: Finding)
    requires forall k :: k in keys ==> k in t
    ensures f in FindingsOf(keys, t) <==> exists k, v :: k in keys && FoundAt(t, k, v, f)
  {
    if keys != [] {
      var n := |keys| - 1;
      assert keys == keys[..n] + [keys[n]];
      FindingsMember(keys[..n], t, f);
      CollectMember(FindingOf(keys[n]), t[keys[n]], f);
      if exists v :: FoundAt(t, keys[n], v, f) {
        var v :| FoundAt(t, keys[n], v, f);
        var i :| 0 <= i < |t[keys[n]]| && t[keys[n]][i] == v;
        assert FindingOf(keys[n])(t[keys[n]][i]) == Some(f);
      }
      if f in Collect(FindingOf(keys[n]), t[keys[n]]) {
        var i :| 0 <= i < |t[keys[n]]| && FindingOf(keys[n])(t[keys[n]][i]) == Some(f);
        assert FoundAt(t, keys[n], t[keys[n]][i], f);
      }
    }
  }

  lemma {:induction false} LayoutAt(pools: seq<PrintedPool>, p: PrintedPool)
    requires forall i, j :: 0 <= i < j < |pools| ==> pools[i].entry.name != pools[j].entry.name
    requires p in pools
    ensures p.entry.name in Layout(pools) && Layout(pools)[p.entry.name] == Shapes(p.vdevs)
  {
    var n := |pools| - 1;
    assert pools == pools[..n] + [pools[n]];
    if p != pools[n] {
      LayoutAt(pools[..n], p);
      var i :| 0 <= i < n && pools[i] == p;
    }
  }

  /** A bare device anywhere but among the cache and the spares. */
  ghost predicate IsExposed(v: PrintedVdev) { IsBare(v.entry.name) && v.tier != "cache" && v.tier != "spare" }

  /** Data, metadata and deduplication tables take the whole pool with them. */
  predicate TakesThePool(tier: string) { tier == "data" || tier == "special" || tier == "dedup" }

  ghost predicate Exposes(pools: seq<PrintedPool>, p: PrintedPool, v: PrintedVdev, f: Finding) {
    && p in pools && v in p.vdevs && IsExposed(v)
    && f == Finding(p.entry.name, v.entry.name, v.tier, if TakesThePool(v.tier) then Crit else Warn)
  }

  lemma {:induction false} FoundIsExposed(pools: seq<PrintedPool>, k: string, shape: Vdev, f: Finding)
    requires forall i, j :: 0 <= i < j < |pools| ==> pools[i].entry.name != pools[j].entry.name
    requires FoundAt(Layout(pools), k, shape, f)
    ensures exists p, v :: Exposes(pools, p, v, f)
  {
    LayoutKeys(pools);
    var p :| p in pools && p.entry.name == k;
    LayoutAt(pools, p);
    var i :| 0 <= i < |p.vdevs| && Shapes(p.vdevs)[i] == shape;
    RedundancyIff(p.vdevs[i].entry.name);
    assert Exposes(pools, p, p.vdevs[i], f);
  }

  lemma {:induction false} ExposedIsFound(pools: seq<PrintedPool>, p: PrintedPool, v: PrintedVdev, f: Finding)
    requires forall i, j :: 0 <= i < j < |pools| ==> pools[i].entry.name != pools[j].entry.name
    requires Exposes(pools, p, v, f)
    ensures FoundAt(Layout(pools), p.entry.name, Shape(v), f)
  {
    LayoutAt(pools, p);
    var i :| 0 <= i < |p.vdevs| && p.vdevs[i] == v;
    assert Shapes(p.vdevs)[i] == Shape(v);
    RedundancyIff(v.entry.name);
  }

  /** The findings on a printed layout are exactly its vdevs without redundancy outside cache and spares. */
  lemma {:induction false} FindingsAreExact(pools: seq<PrintedPool>, keys: seq<string>, f: Finding)
    requires forall i, j :: 0 <= i < j < |pools| ==> pools[i].entry.name != pools[j].entry.name
    requires SortedKeys(keys, Layout(pools))
    ensures f in FindingsOf(keys, Layout(pools)) <==> exists p, v :: Exposes(pools, p, v, f)
  {
    FindingsMember(keys, Layout(pools), f);
    if f in FindingsOf(keys, Layout(pools)) {
      var k, shape :| k in keys && FoundAt(Layout(pools), k, shape, f);
      FoundIsExposed(pools, k, shape, f);
    }
    if exists p, v :: Exposes(pools, p, v, f) {
      var p, v :| Exposes(pools, p, v, f);
      ExposedIsFound(pools, p, v, f);
    }
  }
}
