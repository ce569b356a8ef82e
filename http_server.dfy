/**
 * The decision logic of the bot's web server: which supervisor may start,
 * the CSS class of an item quality, the per-supervisor drop counts, the
 * inventory-lock grid written back from the settings form and the split of
 * runs into enabled and disabled ones.
 */
module HttpServer {
  import opened Common
  import opened Config

  // ---------------------------------------------------------------------------
  // Item qualities.

  const QualityNames: seq<string> := ["LowQuality", "Normal", "Superior", "Magic", "Set", "Rare", "Unique"]

  function QualityClass(quality: string): string {
    if quality == "LowQuality" then "low-quality"
    else if quality == "Normal" then "normal-quality"
    else if quality == "Superior" then "superior-quality"
    else if quality == "Magic" then "magic-quality"
    else if quality == "Set" then "set-quality"
    else if quality == "Rare" then "rare-quality"
    else if quality == "Unique" then "unique-quality"
    else "unknown-quality"
  }

  /**
   * The seven quality names get seven different classes, none of them the
   * fallback class; every other text gets the fallback class.
   */
  lemma QualityClassCases(quality: string)
    ensures QualityClass(quality) == "unknown-quality" <==> quality !in QualityNames
    ensures forall i, j :: 0 <= i < j < |QualityNames| ==> QualityClass(QualityNames[i]) != QualityClass(QualityNames[j])
  {
  }

  /** Whether `item` occurs in `slice`. */
  method Containss(slice: seq<string>, item: string) returns (found: bool)
    ensures found <==> item in slice
  {
    for i := 0 to |slice|
      invariant item !in slice[..i]
    {
      if slice[i] == item {
        return true;
      }
      assert slice[..i + 1] == slice[..i] + [slice[i]];
    }
    assert slice[..|slice|] == slice;
    return false;
  }

  // ---------------------------------------------------------------------------
  // Starting a supervisor.

  /**
   * Whether starting supervisor `sup` keeps `name` from starting: `sup` is
   * another supervisor that is still starting, and one of the two logs in
   * with a token.
   */
  predicate Blocks(name: string, sup: string, statuses: map<string, SupervisorStatus>,
                   chars: map<string, CharacterCfg>)
    requires name in chars
  {
    && sup != name
    && StatusOf(statuses, sup) == Starting
    && (chars[name].authMethod == TokenAuth || (sup in chars && chars[sup].authMethod == TokenAuth))
  }

  datatype Admission = NoConfig | Refused | Started

  /** The admission rule of the start endpoint; `Started` stands for the call to the manager's Start. */
  method StartSupervisor(name: string, supervisors: seq<string>, statuses: map<string, SupervisorStatus>,
                         chars: map<string, CharacterCfg>) returns (a: Admission)
    ensures a == NoConfig <==> name !in chars
    ensures a == Refused <==> name in chars && exists i :: 0 <= i < |supervisors| && Blocks(name, supervisors[i], statuses, chars)
    ensures a == Started <==> name in chars && forall i :: 0 <= i < |supervisors| ==> !Blocks(name, supervisors[i], statuses, chars)
  {
    if name !in chars {
      return NoConfig;
    }
    var supCfg := chars[name];
    for i := 0 to |supervisors|
      invariant forall j :: 0 <= j < i ==> !Blocks(name, supervisors[j], statuses, chars)
    {
      var sup := supervisors[i];
      if sup == name {
        continue;
      }
      if StatusOf(statuses, sup) == Starting {
        if supCfg.authMethod == TokenAuth {
          return Refused;
        }
        if sup in chars {
          var sCfg := chars[sup];
          if sCfg.authMethod == TokenAuth {
            return Refused;
          }
        }
      }
    }
    return Started;
  }

  // ---------------------------------------------------------------------------
  // Status data.

  /** The part of a supervisor's statistics read here; `drops` is None when the slice is nil. */
  datatype SupervisorStats = SupervisorStats(status: SupervisorStatus, drops: Option<seq<string>>)

  function DropCount(st: SupervisorStats): nat {
    match st.drops
    case None => 0
    case Some(ds) => |ds|
  }

  function StatsOf(stats: map<string, SupervisorStats>, sup: string): SupervisorStats {
    if sup in stats then stats[sup] else SupervisorStats(OtherStatus(""), None)
  }

  /** The status and the drop count of every available supervisor. */
  method GetStatusData(supervisors: seq<string>, stats: map<string, SupervisorStats>)
    returns (status: map<string, SupervisorStatus>, drops: map<string, nat>)
    ensures status.Keys == drops.Keys == set i | 0 <= i < |supervisors| :: supervisors[i]
    ensures forall s :: s in status ==> status[s] == StatsOf(stats, s).status
    ensures forall s :: s in drops ==> drops[s] == DropCount(StatsOf(stats, s))
  {
    status, drops := map[], map[];
    for i := 0 to |supervisors|
      invariant status.Keys == drops.Keys == set j | 0 <= j < i :: supervisors[j]
      invariant forall s :: s in status ==> status[s] == StatsOf(stats, s).status
      invariant forall s :: s in drops ==> drops[s] == DropCount(StatsOf(stats, s))
    {
      var name := supervisors[i];
      var st := StatsOf(stats, name);
      status := status[name := st.status];
      if st.drops.Some? {
        drops := drops[name := |st.drops.value|];
      } else {
        drops := drops[name := 0];
      }
    }
  }

  // ---------------------------------------------------------------------------
  // The inventory-lock grid of the settings form.

  /** The form key of cell [y][x], as fmt "inventoryLock[%d][%d]" writes it. */
  function LockKey(y: nat, x: nat): string {
    "inventoryLock[" + (NatToDecimal(y) + ("][" + (NatToDecimal(x) + "]")))
  }

  /** Cell [y][x] becomes 0 (locked) when the form has its key, else 1. */
  method ApplyInventoryLock(grid: seq<seq<int>>, form: set<string>) returns (r: seq<seq<int>>)
    ensures |r| == |grid|
    ensures forall y :: 0 <= y < |r| ==> |r[y]| == |grid[y]|
    ensures forall y, x :: 0 <= y < |r| && 0 <= x < |r[y]| ==> r[y][x] == if LockKey(y, x) in form then 0 else 1
  {
    r := grid;
    for y := 0 to |r|
      invariant |r| == |grid|
      invariant forall j :: 0 <= j < |r| ==> |r[j]| == |grid[j]|
      invariant forall j, x :: 0 <= j < y && 0 <= x < |r[j]| ==> r[j][x] == if LockKey(j, x) in form then 0 else 1
    {
      for x := 0 to |r[y]|
        invariant |r| == |grid|
        invariant forall j :: 0 <= j < |r| ==> |r[j]| == |grid[j]|
        invariant forall j, x' :: 0 <= j < y && 0 <= x' < |r[j]| ==> r[j][x'] == if LockKey(j, x') in form then 0 else 1
        invariant forall x' :: 0 <= x' < x ==> r[y][x'] == if LockKey(y, x') in form then 0 else 1
      {
        if LockKey(y, x) in form {
          r := r[y := r[y][x := 0]];
        } else {
          r := r[y := r[y][x := 1]];
        }
      }
    }
  }

  /** Length of the longest prefix of `s` made of decimal digits. */
  function DigitRun(s: string): nat {
    if s == [] || !IsDigit(s[0]) then 0 else 1 + DigitRun(s[1..])
  }

  lemma {:induction false} DigitRunOf(a: string, r: string)
    requires forall i :: 0 <= i < |a| ==> IsDigit(a[i])
    requires |r| > 0 && !IsDigit(r[0])
    ensures DigitRun(a + r) == |a|
  {
    if a != [] {
      assert (a + r)[1..] == a[1..] + r;
      DigitRunOf(a[1..], r);
    } else {
      assert a + r == r;
    }
  }

  /** A digit string followed by a non-digit can be read off unambiguously. */
  lemma DigitsPrefix(a: string, ra: string, b: string, rb: string)
    requires forall i :: 0 <= i < |a| ==> IsDigit(a[i])
    requires forall i :: 0 <= i < |b| ==> IsDigit(b[i])
    requires |ra| > 0 && !IsDigit(ra[0]) && |rb| > 0 && !IsDigit(rb[0])
    requires a + ra == b + rb
    ensures a == b && ra == rb
  {
    DigitRunOf(a, ra);
    DigitRunOf(b, rb);
    assert a == (a + ra)[..|a|];
    assert b == (b + rb)[..|b|];
    assert ra == (a + ra)[|a|..];
    assert rb == (b + rb)[|b|..];
  }

  lemma NatToDecimalInjective(m: nat, n: nat)
    requires NatToDecimal(m) == NatToDecimal(n)
    ensures m == n
  {
    DecimalRoundTrip(m);
    DecimalRoundTrip(n);
  }

  /** Different cells have different form keys, so each cell reads its own checkbox. */
  lemma LockKeyInjective(y1: nat, x1: nat, y2: nat, x2: nat)
    requires LockKey(y1, x1) == LockKey(y2, x2)
    ensures y1 == y2 && x1 == x2
  {
    var p := "inventoryLock[";
    var t1 := NatToDecimal(y1) + ("][" + (NatToDecimal(x1) + "]"));
    var t2 := NatToDecimal(y2) + ("][" + (NatToDecimal(x2) + "]"));
    assert t1 == (p + t1)[|p|..] && t2 == (p + t2)[|p|..];
    DigitsPrefix(NatToDecimal(y1), "][" + (NatToDecimal(x1) + "]"), NatToDecimal(y2), "][" + (NatToDecimal(x2) + "]"));
    var u1, u2 := NatToDecimal(x1) + "]", NatToDecimal(x2) + "]";
    assert u1 == ("][" + u1)[2..] && u2 == ("][" + u2)[2..];
    DigitsPrefix(NatToDecimal(x1), "]", NatToDecimal(x2), "]");
    NatToDecimalInjective(y1, y2);
    NatToDecimalInjective(x1, x2);
  }

  // ---------------------------------------------------------------------------
  // Enabled and disabled runs of the settings page.

  /**
   * The enabled runs in the configured order, and every available run that
   * is not enabled, each once, in the map's unspecified order.
   */
  method PartitionRuns(runs: seq<string>, available: set<string>) returns (enabled: seq<string>, disabled: seq<string>)
    ensures enabled == runs
    ensures forall run :: run in disabled <==> run in available && run !in runs
    ensures forall i, j :: 0 <= i < j < |disabled| ==> disabled[i] != disabled[j]
    ensures forall i, j :: 0 <= i < |disabled| && 0 <= j < |enabled| ==> disabled[i] != enabled[j]
  {
    enabled := [];
    for i := 0 to |runs|
      invariant enabled == runs[..i]
    {
      enabled := enabled + [runs[i]];
    }
    assert runs[..|runs|] == runs;
    disabled := [];
    var remaining := available;
    while remaining != {}
      invariant remaining <= available
      invariant forall run :: run in disabled <==> run in available - remaining && run !in runs
      invariant forall i :: 0 <= i < |disabled| ==> disabled[i] !in remaining && disabled[i] !in runs
      invariant forall i, j :: 0 <= i < j < |disabled| ==> disabled[i] != disabled[j]
      decreases remaining
    {
      var run :| run in remaining;
      var contained := Containss(runs, run);
      if !contained {
        disabled := disabled + [run];
      }
      remaining := remaining - {run};
    }
  }
}
