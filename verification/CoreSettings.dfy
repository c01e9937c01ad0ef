/** GUI settings as overrides of the node's configuration, written and read back. */
module CoreSettings {
  import opened Options
  import Amount

  /** A value as settings.json and bitcoin.conf hold it. */
  datatype Value = Null | Bool(b: bool) | Num(n: int) | Str(s: string)

  datatype Key =
    | Listen | Natpmp | Server | Prune | PrunePrev | Proxy | ProxyPrev | Onion | OnionPrev | OtherKey(name: string)

  /** The node's own conversions, defaults and address check, of which only `Sound` is known. */
  datatype Core = Core(toInt: string -> int, toBool: string -> bool, validProxy: string -> bool, listen: bool,
      natpmp: bool)

  ghost predicate Sound(core: Core) {
    !core.validProxy("") && forall n: nat :: n <= Amount.MAX64 ==> core.toInt(Amount.Number(n)) == n
  }

  /** Sources from strongest to weakest. */
  datatype Settings = Settings(
    forced: map<Key, Value>, commandLine: map<Key, Value>, rw: map<Key, Value>, config: map<Key, Value>)

  datatype Values = Values(
    prune: bool, pruneSizeGB: int, listen: bool, natpmp: bool, server: bool,
    proxyEnabled: bool, proxyAddress: string, torEnabled: bool, torAddress: string)

  const DEFAULT_PROXY: string := "127.0.0.1:9050"
  const DEFAULT_PRUNE_TARGET_GB: int := 2
  const GB_BYTES: int := 1_000_000_000
  const MIB: int := 1_048_576
  const MAX_INT: int := 0x7fff_ffff

  // ---- Sources ----

  function Lookup(m: map<Key, Value>, k: Key): Value {
    if k in m then m[k] else Null
  }

  function Persistent(s: Settings, k: Key): Value {
    if Lookup(s.rw, k) != Null then Lookup(s.rw, k) else Lookup(s.config, k)
  }

  function Effective(s: Settings, k: Key): Value {
    if Lookup(s.forced, k) != Null then Lookup(s.forced, k)
    else if Lookup(s.commandLine, k) != Null then Lookup(s.commandLine, k)
    else Persistent(s, k)
  }

  // ---- Conversions ----

  function ToBool(core: Core, v: Value): Option<bool> {
    match v
    case Null => None
    case Bool(b) => Some(b)
    case Num(n) => Some(n != 0)
    case Str(s) => Some(core.toBool(s))
  }

  function ToInt(core: Core, v: Value): Option<int> {
    match v
    case Null => None
    case Bool(b) => Some(if b then 1 else 0)
    case Num(n) => Some(n)
    case Str(s) => Some(core.toInt(s))
  }

  function NumText(n: int): string {
    if n < 0 then "-" + Amount.Number(-n) else Amount.Number(n)
  }

  function ToText(v: Value): Option<string> {
    match v
    case Null => None
    case Bool(b) => Some(if b then "1" else "0")
    case Num(n) => Some(NumText(n))
    case Str(s) => Some(s)
  }

  function Or<T>(o: Option<T>, other: T): T {
    if o.Some? then o.value else other
  }

  function TrimLeft(s: string): string {
    if s != "" && Amount.IsSpace(s[0]) then TrimLeft(s[1..]) else s
  }

  function TrimRight(s: string): string {
    if s != "" && Amount.IsSpace(s[|s| - 1]) then TrimRight(s[..|s| - 1]) else s
  }

  function Trim(s: string): string {
    TrimRight(TrimLeft(s))
  }

  lemma {:induction false} TrimLeftEnds(s: string)
    ensures var t := TrimLeft(s); t == "" || !Amount.IsSpace(t[0])
  {
    if s != "" && Amount.IsSpace(s[0]) {
      TrimLeftEnds(s[1..]);
    }
  }

  lemma {:induction false} TrimRightEnds(s: string)
    ensures var t := TrimRight(s); t == "" || (!Amount.IsSpace(t[|t| - 1]) && s != "" && t[0] == s[0])
  {
    if s != "" && Amount.IsSpace(s[|s| - 1]) {
      TrimRightEnds(s[..|s| - 1]);
    }
  }

  lemma TrimTwice(s: string)
    ensures Trim(Trim(s)) == Trim(s)
  {
    hide Amount.IsSpace;
    TrimLeftEnds(s);
    TrimRightEnds(TrimLeft(s));
  }

  // ---- Pruning target ----

  function MiBToGB(mib: int): int {
    (mib * MIB + GB_BYTES - 1) / GB_BYTES
  }

  function GBToMiB(gb: int): int {
    gb * GB_BYTES / 1024 / 1024
  }

  /** The conversion loses less than a mebibyte, so rounding up restores the size. */
  lemma PruneRoundTrip(gb: int)
    requires 1 <= gb <= MAX_INT
    ensures MiBToGB(GBToMiB(gb)) == gb
    ensures 1 < GBToMiB(gb) <= Amount.MAX64
  {
    var bytes := gb * GB_BYTES;
    var mib := GBToMiB(gb);
    assert bytes / 1024 / 1024 == bytes / MIB;
    assert mib * MIB <= bytes < mib * MIB + MIB;
  }

  function PruneEnabled(core: Core, v: Value): bool {
    Or(ToInt(core, v), 0) > 1
  }

  function PruneSize(core: Core, v: Value): int {
    var n := Or(ToInt(core, v), 0);
    if n > 1 then MiBToGB(n) else DEFAULT_PRUNE_TARGET_GB
  }

  function PruneValue(enabled: bool, gb: int): Value {
    if enabled then Num(GBToMiB(if gb < 1 then 1 else gb)) else Num(0)
  }

  // ---- Loading ----

  function ProxyText(v: Value): string {
    var s := Or(ToText(v), "");
    if s == "0" then "" else s
  }

  function LoadProxy(s: Settings, k: Key, prev: Key): (bool, string) {
    var current := ProxyText(Effective(s, k));
    var address := if current != "" then current else Or(ToText(Persistent(s, prev)), "");
    (current != "", if address == "" then DEFAULT_PROXY else address)
  }

  function LoadPrune(core: Core, s: Settings): (bool, int) {
    var v := Effective(s, Prune);
    (PruneEnabled(core, v), PruneSize(core, if PruneEnabled(core, v) then v else Persistent(s, PrunePrev)))
  }

  function LoadFlag(core: Core, s: Settings, k: Key): bool {
    Or(ToBool(core, Effective(s, k)), DefaultFlag(core, k))
  }

  function DefaultFlag(core: Core, k: Key): bool {
    match k
    case Listen => core.listen
    case Natpmp => core.natpmp
    case _ => false
  }

  function LoadEffective(core: Core, s: Settings): Values {
    var prune := LoadPrune(core, s);
    var proxy := LoadProxy(s, Proxy, ProxyPrev);
    var onion := LoadProxy(s, Onion, OnionPrev);
    Values(prune.0, prune.1, LoadFlag(core, s, Listen), LoadFlag(core, s, Natpmp), LoadFlag(core, s, Server),
           proxy.0, proxy.1, onion.0, onion.1)
  }

  // ---- Writing ----

  predicate IsFlag(k: Key) {
    k.Listen? || k.Natpmp? || k.Server?
  }

  predicate IsProxy(k: Key) {
    k.Proxy? || k.Onion?
  }

  predicate Empty(o: Option<string>) {
    o.None? || o.value == "" || o.value == "0"
  }

  function ValuesEqual(core: Core, k: Key, left: Value, right: Value): bool {
    if left == Null && right == Null then true
    else if IsFlag(k) then
      var l, r := ToBool(core, left), ToBool(core, right);
      l.Some? && r.Some? && l.value == r.value
    else if k.Prune? then
      var l, r := ToInt(core, left), ToInt(core, right);
      l.Some? && r.Some? && l.value == r.value
    else if IsProxy(k) then
      var l, r := ToText(left), ToText(right);
      (Empty(l) && Empty(r)) || (l.Some? && r.Some? && l.value == r.value)
    else left == right
  }

  function DefaultValue(core: Core, k: Key): Value {
    if IsFlag(k) then Bool(DefaultFlag(core, k)) else if k.Prune? then Num(0) else Null
  }

  /** Forced values count for the settings that take part in startup interactions. */
  function ForcedValue(s: Settings, k: Key): Value {
    if k.Listen? || k.Natpmp? then Lookup(s.forced, k) else Null
  }

  /** Null where the weaker sources already say the same. */
  function Override(core: Core, s: Settings, k: Key, v: Value): Value {
    var forced := ForcedValue(s, k);
    if forced != Null then if ValuesEqual(core, k, v, forced) then Null else v
    else
      var below := if Lookup(s.config, k) != Null then Lookup(s.config, k) else DefaultValue(core, k);
      if ValuesEqual(core, k, v, below) then Null else v
  }

  /** Numbers that older releases read as text. */
  function Stored(k: Key, v: Value): Value {
    if v.Num? && (k.Prune? || k.PrunePrev?) then Str(NumText(v.n)) else v
  }

  function SetRw(s: Settings, k: Key, v: Value): Settings {
    var stored := Stored(k, v);
    s.(rw := if stored == Null then s.rw - {k} else s.rw[k := stored])
  }

  predicate CanEdit(s: Settings, k: Key) {
    k !in s.commandLine
  }

  function WriteOverride(core: Core, s: Settings, k: Key, v: Value): (Settings, bool) {
    if !CanEdit(s, k) then (s, false) else (SetRw(s, k, Override(core, s, k, v)), true)
  }

  function WritePrune(core: Core, s: Settings, enabled: bool, gb: int): (Settings, bool) {
    if !CanEdit(s, Prune) then (s, false)
    else if enabled then
      (SetRw(WriteOverride(core, s, Prune, PruneValue(true, gb)).0, PrunePrev, Null), true)
    else
      WriteOverride(core, SetRw(s, PrunePrev, PruneValue(true, gb)), Prune, PruneValue(false, gb))
  }

  function ProxyValue(enabled: bool, address: string): Value {
    if enabled && Trim(address) != "" then Str(Trim(address)) else Bool(false)
  }

  function WriteProxy(core: Core, s: Settings, k: Key, prev: Key, enabled: bool, address: string): (Settings, bool) {
    var trimmed := Trim(address);
    if !CanEdit(s, k) || (enabled && !core.validProxy(trimmed)) then (s, false)
    else if enabled then (SetRw(WriteOverride(core, s, k, ProxyValue(true, trimmed)).0, prev, Null), true)
    else
      WriteOverride(core, if trimmed == "" then s else SetRw(s, prev, Str(trimmed)), k, ProxyValue(false, trimmed))
  }

  function WriteOne(core: Core, s: Settings, values: Values, k: Key): (Settings, bool) {
    match k
    case Listen => WriteOverride(core, s, k, Bool(values.listen))
    case Natpmp => WriteOverride(core, s, k, Bool(values.natpmp))
    case Server => WriteOverride(core, s, k, Bool(values.server))
    case Prune => WritePrune(core, s, values.prune, values.pruneSizeGB)
    case Proxy => WriteProxy(core, s, Proxy, ProxyPrev, values.proxyEnabled, values.proxyAddress)
    case Onion => WriteProxy(core, s, Onion, OnionPrev, values.torEnabled, values.torAddress)
    case _ => (s, false)
  }

  // ---- Each setting reads back ----

  /** No startup-forced value and no command-line option stands above the key. */
  predicate Free(s: Settings, k: Key) {
    k !in s.forced && k !in s.commandLine
  }

  /** Only the key itself changes in settings.json. */
  lemma SetRwLookup(s: Settings, k: Key, v: Value, j: Key)
    ensures var n := SetRw(s, k, v);
      && n == s.(rw := n.rw)
      && (j != k ==> (j in n.rw <==> j in s.rw) && Lookup(n.rw, j) == Lookup(s.rw, j))
      && Lookup(n.rw, k) == Stored(k, v)
  {
    hide NumText, Stored;
  }

  /** Setting one key: what it then holds, and that no other key is touched. */
  lemma SetRwEffect(s: Settings, k: Key, v: Value, j: Key)
    ensures var n := SetRw(s, k, v);
      && n == s.(rw := n.rw)
      && (j != k ==> (j in n.rw <==> j in s.rw) && Lookup(n.rw, j) == Lookup(s.rw, j)
                     && Effective(n, j) == Effective(s, j) && Persistent(n, j) == Persistent(s, j))
      && Persistent(n, k) == (if v == Null then Lookup(s.config, k) else Stored(k, v))
  {
    hide NumText, SetRw, Lookup;
    SetRwLookup(s, k, v, j);
    assert v == Null <==> Stored(k, v) == Null;
    hide Stored;
  }

  /** After an override is written, the key means what was written. */
  lemma OverrideEffect(core: Core, s: Settings, k: Key, v: Value)
    requires Free(s, k) && v != Null
    ensures var w := WriteOverride(core, s, k, v); var config := Lookup(s.config, k);
      && w.1
      && (Effective(w.0, k) == Stored(k, v)
          || (Effective(w.0, k) == config
              && ValuesEqual(core, k, v, if config != Null then config else DefaultValue(core, k))))
  {
    hide ValuesEqual, DefaultValue, Stored;
    SetRwEffect(s, k, Override(core, s, k, v), k);
    hide SetRw;
  }

  lemma OverrideFrame(core: Core, s: Settings, k: Key, v: Value, j: Key)
    requires j != k
    ensures var n := WriteOverride(core, s, k, v).0;
      && n == s.(rw := n.rw) && (j in n.rw <==> j in s.rw) && Lookup(n.rw, j) == Lookup(s.rw, j)
      && Effective(n, j) == Effective(s, j) && Persistent(n, j) == Persistent(s, j)
  {
    hide Override;
    SetRwEffect(s, k, Override(core, s, k, v), j);
    hide SetRw, Effective, Persistent;
  }

  lemma FlagReadsBack(core: Core, s: Settings, k: Key, b: bool)
    requires IsFlag(k) && Free(s, k)
    ensures var w := WriteOverride(core, s, k, Bool(b)); w.1 && LoadFlag(core, w.0, k) == b
  {
    hide WriteOverride, Effective;
    OverrideEffect(core, s, k, Bool(b));
  }

  /** What the stored pruning target converts to. */
  lemma PruneStored(core: Core, gb: int, k: Key)
    requires Sound(core) && gb <= MAX_INT && (k.Prune? || k.PrunePrev?)
    ensures var size := if gb < 1 then 1 else gb; var v := Stored(k, PruneValue(true, gb));
      v != Null && PruneEnabled(core, v) && PruneSize(core, v) == size && ToInt(core, v) == Some(GBToMiB(size))
          && GBToMiB(size) > 1
    ensures ToInt(core, Stored(k, Num(0))) == Some(0)
    ensures MiBToGB(GBToMiB(if gb < 1 then 1 else gb)) == if gb < 1 then 1 else gb
  {
    var size := if gb < 1 then 1 else gb;
    PruneRoundTrip(size);
    hide MiBToGB, GBToMiB, Amount.Number;
    assert core.toInt(Amount.Number(GBToMiB(size))) == GBToMiB(size);
    assert core.toInt(Amount.Number(0)) == 0;
  }

  lemma PruneOnReadsBack(core: Core, s: Settings, gb: int)
    requires Sound(core) && Free(s, Prune) && gb <= MAX_INT
    ensures var w := WritePrune(core, s, true, gb); w.1 && LoadPrune(core, w.0) == (true, if gb < 1 then 1 else gb)
  {
    hide WriteOverride, SetRw, Effective, Persistent, MiBToGB, GBToMiB, NumText;
    var v := PruneValue(true, gb);
    PruneStored(core, gb, Prune);
    OverrideEffect(core, s, Prune, v);
    SetRwEffect(WriteOverride(core, s, Prune, v).0, PrunePrev, Null, Prune);
  }

  lemma PruneOffReadsBack(core: Core, s: Settings, gb: int)
    requires Sound(core) && Free(s, Prune) && gb <= MAX_INT
    ensures var w := WritePrune(core, s, false, gb); w.1 && LoadPrune(core, w.0) == (false, if gb < 1 then 1 else gb)
  {
    hide WriteOverride, SetRw, Effective, Persistent, MiBToGB, GBToMiB, NumText;
    PruneStored(core, gb, PrunePrev);
    PruneStored(core, gb, Prune);
    var t := SetRw(s, PrunePrev, PruneValue(true, gb));
    SetRwEffect(s, PrunePrev, PruneValue(true, gb), Prune);
    OverrideEffect(core, t, Prune, Num(0));
    OverrideFrame(core, t, Prune, Num(0), PrunePrev);
  }

  predicate PrevOf(k: Key, prev: Key) {
    (k.Proxy? && prev.ProxyPrev?) || (k.Onion? && prev.OnionPrev?)
  }

  lemma ProxyOnReadsBack(core: Core, s: Settings, k: Key, prev: Key, address: string)
    requires Sound(core) && Free(s, k) && PrevOf(k, prev) && core.validProxy(Trim(address))
    ensures var w := WriteProxy(core, s, k, prev, true, address); var r := LoadProxy(w.0, k, prev);
      && w.1 && (r.0 <==> Trim(address) != "0") && (r.0 ==> r.1 == Trim(address))
  {
    TrimTwice(address);
    hide WriteOverride, SetRw, Effective, Persistent, NumText, Trim;
    var v := ProxyValue(true, Trim(address));
    OverrideEffect(core, s, k, v);
    SetRwEffect(WriteOverride(core, s, k, v).0, prev, Null, k);
  }

  lemma ProxyOffReadsBack(core: Core, s: Settings, k: Key, prev: Key, address: string)
    requires Free(s, k) && PrevOf(k, prev)
    ensures var w := WriteProxy(core, s, k, prev, false, address); var r := LoadProxy(w.0, k, prev);
      w.1 && !r.0 && (Trim(address) != "" ==> r.1 == Trim(address))
  {
    hide WriteOverride, SetRw, Effective, Persistent, NumText, Trim;
    var trimmed := Trim(address);
    var t := if trimmed == "" then s else SetRw(s, prev, Str(trimmed));
    SetRwEffect(s, prev, Str(trimmed), k);
    OverrideEffect(core, t, k, Bool(false));
    OverrideFrame(core, t, k, Bool(false), prev);
  }

  /** An invalid address is refused: nothing is written, and the proxy loads as before. */
  lemma InvalidProxyRefused(core: Core, s: Settings, k: Key, prev: Key, address: string)
    requires PrevOf(k, prev) && !core.validProxy(Trim(address))
    ensures var w := WriteProxy(core, s, k, prev, true, address); !w.1 && w.0 == s
  {
  }

  /** A key set on the command line is refused: nothing is written, and everything loads as before. */
  lemma CommandLineRefuses(core: Core, s: Settings, values: Values, k: Key)
    requires k in s.commandLine
    ensures var w := WriteOne(core, s, values, k); !w.1 && w.0 == s
  {
  }

  // ---- Whole sessions ----

  const SESSION_NAMES: seq<Key> := [Listen, Natpmp, Server, Prune, Proxy, Onion]

  function Prev(k: Key): Key {
    match k
    case Prune => PrunePrev
    case Proxy => ProxyPrev
    case Onion => OnionPrev
    case _ => k
  }

  function WriteTouched(core: Core, s: Settings, values: Values, touched: set<Key>, n: nat): (Settings, bool)
    requires n <= |SESSION_NAMES|
  {
    if n == 0 then (s, true)
    else
      var w := WriteTouched(core, s, values, touched, n - 1);
      if SESSION_NAMES[n - 1] !in touched then w
      else
        var one := WriteOne(core, w.0, values, SESSION_NAMES[n - 1]);
        (one.0, one.1 && w.1)
  }

  /** The session's values can be written. */
  predicate Acceptable(core: Core, values: Values, k: Key) {
    match k
    case Prune => values.pruneSizeGB <= MAX_INT
    case Proxy => values.proxyEnabled ==> core.validProxy(Trim(values.proxyAddress))
    case Onion => values.torEnabled ==> core.validProxy(Trim(values.torAddress))
    case _ => true
  }

  predicate ProxyBack(r: (bool, string), enabled: bool, address: string) {
    && (r.0 <==> enabled && Trim(address) != "0")
    && (Trim(address) != "" && !(enabled && Trim(address) == "0") ==> r.1 == Trim(address))
  }

  /** Loading gives back what the session holds for one setting. */
  predicate ReadsBack(core: Core, s: Settings, values: Values, k: Key) {
    match k
    case Listen => LoadFlag(core, s, k) == values.listen
    case Natpmp => LoadFlag(core, s, k) == values.natpmp
    case Server => LoadFlag(core, s, k) == values.server
    case Prune => LoadPrune(core, s) == (values.prune, if values.pruneSizeGB < 1 then 1 else values.pruneSizeGB)
    case Proxy => ProxyBack(LoadProxy(s, Proxy, ProxyPrev), values.proxyEnabled, values.proxyAddress)
    case Onion => ProxyBack(LoadProxy(s, Onion, OnionPrev), values.torEnabled, values.torAddress)
    case _ => true
  }

  /** All that loading one setting depends on. */
  predicate SameFor(s: Settings, t: Settings, k: Key) {
    Effective(t, k) == Effective(s, k) && Persistent(t, Prev(k)) == Persistent(s, Prev(k))
  }

  lemma WriteOneReadsBack(core: Core, s: Settings, values: Values, k: Key)
    requires Sound(core) && Free(s, k) && k in SESSION_NAMES && Acceptable(core, values, k)
    ensures var w := WriteOne(core, s, values, k); w.1 && ReadsBack(core, w.0, values, k)
  {
    hide WriteOverride, WriteProxy, WritePrune, LoadFlag, LoadProxy, LoadPrune, Trim;
    match k {
      case Listen => FlagReadsBack(core, s, k, values.listen);
      case Natpmp => FlagReadsBack(core, s, k, values.natpmp);
      case Server => FlagReadsBack(core, s, k, values.server);
      case Prune =>
        if values.prune {
          PruneOnReadsBack(core, s, values.pruneSizeGB);
        } else {
          PruneOffReadsBack(core, s, values.pruneSizeGB);
        }
      case Proxy =>
        if values.proxyEnabled {
          ProxyOnReadsBack(core, s, Proxy, ProxyPrev, values.proxyAddress);
        } else {
          ProxyOffReadsBack(core, s, Proxy, ProxyPrev, values.proxyAddress);
        }
      case Onion =>
        if values.torEnabled {
          ProxyOnReadsBack(core, s, Onion, OnionPrev, values.torAddress);
        } else {
          ProxyOffReadsBack(core, s, Onion, OnionPrev, values.torAddress);
        }
    }
  }

  /** Writing one setting leaves every key but its own and its previous value alone. */
  lemma WriteOneFrame(core: Core, s: Settings, values: Values, k: Key, j: Key)
    requires j != k && j != Prev(k)
    ensures var n := WriteOne(core, s, values, k).0;
      UntouchedBy(s, n, j)
  {
    hide WriteOverride, SetRw, Effective, Persistent, Lookup, Trim, PruneValue, ProxyValue;
    match k {
      case Listen => OverrideFrame(core, s, k, Bool(values.listen), j);
      case Natpmp => OverrideFrame(core, s, k, Bool(values.natpmp), j);
      case Server => OverrideFrame(core, s, k, Bool(values.server), j);
      case Prune =>
        var gb := values.pruneSizeGB;
        PairFrame(core, s, k, PrunePrev, PruneValue(values.prune, gb), PruneValue(true, gb), j);
      case Proxy =>
        var address := Trim(values.proxyAddress);
        PairFrame(core, s, k, ProxyPrev, ProxyValue(values.proxyEnabled, address), Str(address), j);
      case Onion =>
        var address := Trim(values.torAddress);
        PairFrame(core, s, k, OnionPrev, ProxyValue(values.torEnabled, address), Str(address), j);
      case _ =>
    }
  }

  /** The three orders in which a setting and its previous value are written. */
  lemma PairFrame(core: Core, s: Settings, k: Key, prev: Key, v: Value, kept: Value, j: Key)
    requires j != k && j != prev
    ensures UntouchedBy(s, SetRw(WriteOverride(core, s, k, v).0, prev, Null), j)
    ensures UntouchedBy(s, WriteOverride(core, SetRw(s, prev, kept), k, v).0, j)
    ensures UntouchedBy(s, WriteOverride(core, s, k, v).0, j)
  {
    hide WriteOverride, SetRw, Effective, Persistent, Lookup;
    OverrideFrame(core, s, k, v, j);
    SetRwEffect(WriteOverride(core, s, k, v).0, prev, Null, j);
    SetRwEffect(s, prev, kept, j);
    OverrideFrame(core, SetRw(s, prev, kept), k, v, j);
  }

  predicate UntouchedBy(s: Settings, n: Settings, j: Key) {
    && n == s.(rw := n.rw) && Effective(n, j) == Effective(s, j) && Persistent(n, j) == Persistent(s, j)
    && (j in n.rw <==> j in s.rw) && Lookup(n.rw, j) == Lookup(s.rw, j)
  }

  lemma SameReads(core: Core, s: Settings, t: Settings, values: Values, k: Key)
    requires SameFor(s, t, k) && k in SESSION_NAMES && ReadsBack(core, s, values, k)
    ensures ReadsBack(core, t, values, k)
  {
    hide Effective, Persistent, ProxyBack, PruneSize, PruneEnabled;
  }

  /** The settings after the first `n` names: written ones read back, the rest are as before. */
  ghost predicate Progress(core: Core, s: Settings, t: Settings, values: Values, touched: set<Key>, n: nat)
    requires n <= |SESSION_NAMES|
  {
    && t == s.(rw := t.rw)
    && (forall i :: 0 <= i < n && SESSION_NAMES[i] in touched ==> ReadsBack(core, t, values, SESSION_NAMES[i]))
    && (forall i :: 0 <= i < |SESSION_NAMES| && (i >= n || SESSION_NAMES[i] !in touched) ==>
          SameFor(s, t, SESSION_NAMES[i]))
  }

  lemma NamesApart(i: nat, j: nat)
    requires i < |SESSION_NAMES| && j < |SESSION_NAMES| && i != j
    ensures var k, l := SESSION_NAMES[i], SESSION_NAMES[j]; l != k && l != Prev(k) && Prev(l) != k && Prev(l) != Prev(k)
  {
  }

  lemma StepProgress(core: Core, s: Settings, t: Settings, values: Values, touched: set<Key>, n: nat)
    requires 0 < n <= |SESSION_NAMES| && Progress(core, s, t, values, touched, n - 1) && Sound(core)
    requires var k := SESSION_NAMES[n - 1]; k in touched && Free(s, k) && Acceptable(core, values, k)
    ensures var w := WriteOne(core, t, values, SESSION_NAMES[n - 1]);
      w.1 && Progress(core, s, w.0, values, touched, n)
  {
    hide WriteOne, ReadsBack, Effective, Persistent, Acceptable, Prev;
    var k := SESSION_NAMES[n - 1];
    var w := WriteOne(core, t, values, k);
    WriteOneReadsBack(core, t, values, k);
    forall i | 0 <= i < |SESSION_NAMES| && i != n - 1
      ensures SameFor(t, w.0, SESSION_NAMES[i]) && w.0 == t.(rw := w.0.rw)
    {
      NamesApart(n - 1, i);
      WriteOneFrame(core, t, values, k, SESSION_NAMES[i]);
      WriteOneFrame(core, t, values, k, Prev(SESSION_NAMES[i]));
    }
    NamesApart(n - 1, if n == 1 then 1 else 0);
    WriteOneFrame(core, t, values, k, SESSION_NAMES[if n == 1 then 1 else 0]);
    forall i | 0 <= i < n && SESSION_NAMES[i] in touched ensures ReadsBack(core, w.0, values, SESSION_NAMES[i]) {
      if i != n - 1 {
        SameReads(core, t, w.0, values, SESSION_NAMES[i]);
      }
    }
  }

  /** Writing the touched settings of a session: each reads back, and the untouched keep their values. */
  lemma {:induction false} SessionReadsBack(core: Core, s: Settings, values: Values, touched: set<Key>, n: nat)
    requires Sound(core) && n <= |SESSION_NAMES|
    requires forall i :: 0 <= i < n && SESSION_NAMES[i] in touched ==>
               Free(s, SESSION_NAMES[i]) && Acceptable(core, values, SESSION_NAMES[i])
    ensures var w := WriteTouched(core, s, values, touched, n); w.1 && Progress(core, s, w.0, values, touched, n)
  {
    if n > 0 {
      hide Free, Acceptable, ReadsBack, SameFor, WriteOne;
      SessionReadsBack(core, s, values, touched, n - 1);
      if SESSION_NAMES[n - 1] in touched {
        StepProgress(core, s, WriteTouched(core, s, values, touched, n - 1).0, values, touched, n);
      }
    }
  }

  /** A session with proper addresses, written as a whole over any configuration, is what loading then gives. */
  lemma SessionRoundTrip(core: Core, s: Settings, values: Values, touched: set<Key>)
    requires Sound(core) && forall i :: 0 <= i < |SESSION_NAMES| ==>
               SESSION_NAMES[i] in touched && Free(s, SESSION_NAMES[i]) && Acceptable(core, values, SESSION_NAMES[i])
    requires values.pruneSizeGB >= 1
    requires Trim(values.proxyAddress) == values.proxyAddress && values.proxyAddress != "" && values.proxyAddress != "0"
    requires Trim(values.torAddress) == values.torAddress && values.torAddress != "" && values.torAddress != "0"
    ensures LoadEffective(core, WriteTouched(core, s, values, touched, |SESSION_NAMES|).0) == values
  {
    SessionReadsBack(core, s, values, touched, |SESSION_NAMES|);
    var t := WriteTouched(core, s, values, touched, |SESSION_NAMES|).0;
    hide WriteTouched, Effective, Persistent, Trim, ReadsBack, LoadEffective, SameFor, Free, Acceptable;
    assert SESSION_NAMES[0] == Listen && SESSION_NAMES[1] == Natpmp && SESSION_NAMES[2] == Server;
    assert SESSION_NAMES[3] == Prune && SESSION_NAMES[4] == Proxy && SESSION_NAMES[5] == Onion;
    AllReadBack(core, t, values);
  }

  lemma AllReadBack(core: Core, t: Settings, values: Values)
    requires ReadsBack(core, t, values, Listen) && ReadsBack(core, t, values, Natpmp)
    requires ReadsBack(core, t, values, Server) && ReadsBack(core, t, values, Prune)
    requires ReadsBack(core, t, values, Proxy) && ReadsBack(core, t, values, Onion) && values.pruneSizeGB >= 1
    requires Trim(values.proxyAddress) == values.proxyAddress && values.proxyAddress != "" && values.proxyAddress != "0"
    requires Trim(values.torAddress) == values.torAddress && values.torAddress != "" && values.torAddress != "0"
    ensures LoadEffective(core, t) == values
  {
    hide Effective, Persistent, Trim, LoadFlag, LoadProxy, LoadPrune;
  }

  // ---- The settings object ----

  class ArgsManager {
    const forced: map<Key, Value>
    const commandLine: map<Key, Value>
    const config: map<Key, Value>
    var rw: map<Key, Value>

    constructor (s: Settings)
      ensures View() == s
    {
      forced, commandLine, config, rw := s.forced, s.commandLine, s.config, s.rw;
    }

    function View(): Settings
      reads this
    {
      Settings(forced, commandLine, rw, config)
    }

    method SetRwSetting(k: Key, v: Value)
      modifies this
      ensures View() == SetRw(old(View()), k, v)
    {
      var stored := Stored(k, v);
      if stored == Null {
        rw := rw - {k};
      } else {
        rw := rw[k := stored];
      }
    }

    method WriteCoreSettingOverride(core: Core, k: Key, v: Value) returns (ok: bool)
      modifies this
      ensures (View(), ok) == WriteOverride(core, old(View()), k, v)
    {
      if !CanEdit(View(), k) {
        return false;
      }
      SetRwSetting(k, Override(core, View(), k, v));
      ok := true;
    }

    method WritePruneSetting(core: Core, enabled: bool, gb: int) returns (ok: bool)
      modifies this
      ensures (View(), ok) == WritePrune(core, old(View()), enabled, gb)
    {
      hide Override, SetRw, PruneValue;
      if !CanEdit(View(), Prune) {
        return false;
      }
      if enabled {
        ok := WriteCoreSettingOverride(core, Prune, PruneValue(true, gb));
        if !ok {
          return;
        }
        SetRwSetting(PrunePrev, Null);
      } else {
        SetRwSetting(PrunePrev, PruneValue(true, gb));
        ok := WriteCoreSettingOverride(core, Prune, PruneValue(false, gb));
      }
    }

    method WriteProxySetting(core: Core, k: Key, enabled: bool, address: string) returns (ok: bool)
      requires IsProxy(k)
      modifies this
      ensures (View(), ok) == WriteProxy(core, old(View()), k, Prev(k), enabled, address)
    {
      hide Override, SetRw, ProxyValue, Trim;
      var trimmed := Trim(address);
      if !CanEdit(View(), k) || (enabled && !core.validProxy(trimmed)) {
        return false;
      }
      if enabled {
        ok := WriteCoreSettingOverride(core, k, ProxyValue(true, trimmed));
        if !ok {
          return;
        }
        SetRwSetting(Prev(k), Null);
      } else {
        if trimmed != "" {
          SetRwSetting(Prev(k), Str(trimmed));
        }
        ok := WriteCoreSettingOverride(core, k, ProxyValue(false, trimmed));
      }
    }
  }

  class Session {
    var values: Values
    var touched: set<Key>

    constructor (v: Values)
      ensures values == v && touched == {}
    {
      values, touched := v, {};
    }

    method WriteToArgs(core: Core, args: ArgsManager, k: Key) returns (ok: bool)
      modifies args
      ensures (args.View(), ok) == WriteOne(core, old(args.View()), values, k)
    {
      hide WriteOverride, WritePrune, WriteProxy;
      match k {
        case Proxy => ok := args.WriteProxySetting(core, Proxy, values.proxyEnabled, values.proxyAddress);
        case Onion => ok := args.WriteProxySetting(core, Onion, values.torEnabled, values.torAddress);
        case Prune => ok := args.WritePruneSetting(core, values.prune, values.pruneSizeGB);
        case Listen => ok := args.WriteCoreSettingOverride(core, k, Bool(values.listen));
        case Natpmp => ok := args.WriteCoreSettingOverride(core, k, Bool(values.natpmp));
        case Server => ok := args.WriteCoreSettingOverride(core, k, Bool(values.server));
        case _ => ok := false;
      }
    }

    /** Every touched setting is tried, even after one fails. */
    method WriteTouchedToArgs(core: Core, args: ArgsManager) returns (ok: bool)
      modifies args
      ensures (args.View(), ok) == WriteTouched(core, old(args.View()), values, touched, |SESSION_NAMES|)
    {
      hide WriteOne;
      ok := true;
      for i := 0 to |SESSION_NAMES|
        invariant (args.View(), ok) == WriteTouched(core, old(args.View()), values, touched, i)
      {
        if SESSION_NAMES[i] in touched {
          var one := WriteToArgs(core, args, SESSION_NAMES[i]);
          ok := one && ok;
        }
      }
    }
  }
}
