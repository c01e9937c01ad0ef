/** What settings.json holds after a setting is written: an override where it is needed, and nothing elsewhere. */
module Overrides {
  import opened Options
  import opened CoreSettings
  import Amount

  /** The settings as they would be without an override of the key. */
  function Without(s: Settings, k: Key): Settings {
    s.(rw := s.rw - {k})
  }

  lemma OverrideKept(core: Core, s: Settings, k: Key, v: Value)
    requires k !in s.commandLine && v != Null
    ensures var w := WriteOverride(core, s, k, v).0;
      && (k in w.rw <==> Override(core, s, k, v) != Null)
      && (k in w.rw ==> w.rw[k] == Stored(k, v))
  {
    hide ValuesEqual, NumText, DefaultValue, ForcedValue;
  }

  lemma LoadsWithout(s: Settings, k: Key)
    requires k !in s.commandLine
    ensures Effective(Without(s, k), k) == (
              if Lookup(s.forced, k) != Null then Lookup(s.forced, k) else Lookup(s.config, k))
  {
  }

  /**
   * A flag is written to settings.json exactly when the setting would load differently without it. A value forced at
   * startup is part of that for `listen` and `natpmp`, and is disregarded for `server`.
   */
  lemma FlagOverrideNeeded(core: Core, s: Settings, k: Key, b: bool)
    requires IsFlag(k) && k !in s.commandLine
    ensures var w := WriteOverride(core, s, k, Bool(b));
      var plain := if k.Server? then Without(s, k).(forced := map[]) else Without(s, k);
      && w.1 && (k in w.0.rw <==> LoadFlag(core, plain, k) != b)
      && (k in w.0.rw ==> w.0.rw[k] == Bool(b))
  {
    OverrideKept(core, s, k, Bool(b));
    LoadsWithout(s, k);
    LoadsWithout(s.(forced := map[]), k);
    assert Without(s, k).(forced := map[]) == Without(s.(forced := map[]), k);
    hide Effective, Without;
  }

  function SizeOf(gb: int): int {
    if gb < 1 then 1 else gb
  }

  lemma PruneOverrideKept(core: Core, s: Settings, n: int)
    requires Prune !in s.commandLine
    ensures var w := WriteOverride(core, s, Prune, Num(n)).0;
      && (Prune in w.rw <==> Or(ToInt(core, Lookup(s.config, Prune)), 0) != n)
      && (Prune in w.rw ==> w.rw[Prune] == Str(NumText(n)))
  {
    hide NumText;
    OverrideKept(core, s, Prune, Num(n));
    hide WriteOverride;
  }

  /**
   * The pruning target is written, as decimal text, exactly when bitcoin.conf does not already give that number, no
   * value counting as zero. The size is kept beside it, as text too, exactly while pruning is off.
   */
  lemma PruneOverrideNeeded(core: Core, s: Settings, enabled: bool, gb: int)
    requires Prune !in s.commandLine
    ensures var w := WritePrune(core, s, enabled, gb).0;
      var target := if enabled then GBToMiB(SizeOf(gb)) else 0;
      && (Prune in w.rw <==> Or(ToInt(core, Lookup(s.config, Prune)), 0) != target)
      && (Prune in w.rw ==> w.rw[Prune] == Str(Amount.Number(target)))
      && (PrunePrev in w.rw <==> !enabled)
      && (!enabled ==> w.rw[PrunePrev] == Str(Amount.Number(GBToMiB(SizeOf(gb)))))
  {
    hide WriteOverride, Amount.Number;
    var size := GBToMiB(SizeOf(gb));
    assert size >= 0;
    hide GBToMiB;
    assert PruneValue(true, gb) == Num(size) && PruneValue(false, gb) == Num(0);
    if enabled {
      PruneOverrideKept(core, s, size);
    } else {
      var t := SetRw(s, PrunePrev, Num(size));
      assert t.rw == s.rw[PrunePrev := Str(Amount.Number(size))] && t == s.(rw := t.rw);
      PruneOverrideKept(core, t, 0);
      OverrideFrame(core, t, Prune, Num(0), PrunePrev);
    }
  }

  /** A boolean in bitcoin.conf counts as one or zero, so switching pruning off overrides `true` and leaves `false`. */
  lemma BooleanPruneConfig(core: Core, s: Settings, b: bool, gb: int)
    requires Prune !in s.commandLine && Lookup(s.config, Prune) == Bool(b)
    ensures Prune in WritePrune(core, s, false, gb).0.rw <==> b
  {
    hide WritePrune, GBToMiB;
    PruneOverrideNeeded(core, s, false, gb);
  }

  /** A proxy is written exactly when bitcoin.conf does not already give the same address, or none. */
  lemma ProxyOverrideNeeded(core: Core, s: Settings, k: Key, prev: Key, enabled: bool, address: string)
    requires PrevOf(k, prev) && k !in s.commandLine && (enabled ==> core.validProxy(Trim(address))) && Sound(core)
    ensures var w := WriteProxy(core, s, k, prev, enabled, address).0;
      var config := ProxyText(Lookup(s.config, k));
      && (k in w.rw <==> config != (if enabled && Trim(address) != "0" then Trim(address) else ""))
      && (k in w.rw ==> w.rw[k] == if enabled then Str(Trim(address)) else Bool(false))
      && (enabled ==> prev !in w.rw)
      && (!enabled && Trim(address) != "" ==> prev in w.rw && w.rw[prev] == Str(Trim(address)))
  {
    TrimTwice(address);
    hide WriteOverride, Trim, NumText;
    var a := Trim(address);
    if enabled {
      assert ProxyValue(true, a) == Str(a);
      ProxyOverrideKept(core, s, k, Str(a));
    } else {
      var t := if a == "" then s else SetRw(s, prev, Str(a));
      assert t.config == s.config && t.commandLine == s.commandLine;
      ProxyOverrideKept(core, t, k, Bool(false));
      OverrideFrame(core, t, k, Bool(false), prev);
    }
  }

  lemma ProxyOverrideKept(core: Core, s: Settings, k: Key, v: Value)
    requires (k.Proxy? || k.Onion?) && k !in s.commandLine && (v.Str? || v == Bool(false))
    ensures var w := WriteOverride(core, s, k, v).0;
      && (k in w.rw <==> ProxyText(Lookup(s.config, k)) != ProxyText(v))
      && (k in w.rw ==> w.rw[k] == v)
  {
    hide NumText;
    OverrideKept(core, s, k, v);
    hide WriteOverride;
  }

  /** Any other setting is written exactly when bitcoin.conf does not hold that very value. */
  lemma PlainOverrideNeeded(core: Core, s: Settings, k: Key, v: Value)
    requires k.OtherKey? && k !in s.commandLine && v != Null
    ensures var w := WriteOverride(core, s, k, v).0;
      (k in w.rw <==> v != Lookup(s.config, k)) && (k in w.rw ==> w.rw[k] == v)
  {
    OverrideKept(core, s, k, v);
    hide WriteOverride;
  }

  // ---- What values load as ----

  /** With nothing configured anywhere: the node's own flags, no server, no pruning, no proxies. */
  lemma NothingConfigured(core: Core)
    ensures LoadEffective(core, Settings(map[], map[], map[], map[]))
         == Values(false, 2, core.listen, core.natpmp, false, false, "127.0.0.1:9050", false, "127.0.0.1:9050")
  {
  }

  /** A number switches a flag on exactly when it is not zero. */
  lemma NumberAsFlag(core: Core, s: Settings, k: Key, n: int)
    requires Effective(s, k) == Num(n)
    ensures LoadFlag(core, s, k) <==> n < 0 || n > 0
  {
  }

  /**
   * A target loads as automatic pruning from two mebibytes on, smaller numbers asking for none or manual pruning. The
   * size shown is the least number of gigabytes that holds the target in force, or else the one remembered, or else 2.
   */
  lemma PruneLoads(core: Core, s: Settings, n: int, kept: int)
    requires Effective(s, Prune) == Num(n) && Persistent(s, PrunePrev) == Num(kept)
    ensures var r := LoadPrune(core, s);
      var target := if n >= 2 then n else kept;
      && (r.0 <==> n >= 2)
      && (target >= 2 ==> (r.1 - 1) * 1_000_000_000 < target * 1_048_576 <= r.1 * 1_000_000_000)
      && (target < 2 ==> r.1 == 2)
  {
    hide Effective, Persistent;
  }
}
