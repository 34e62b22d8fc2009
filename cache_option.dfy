/** The `--d-cache` / `--i-cache` option: a text
 *  `[policy,]sets,block,associativity[,write-policy]` decoded into the
 *  settings of one cache (configure_cache in src/cli/main.cpp). */
module CacheOption {
  import opened Cli
  import opened Text

  datatype ReplacementPolicy = Random | Lru | Lfu
  datatype WritePolicy = WriteBack | WriteThroughNoAlloc | WriteThroughAlloc

  /** The keyword that selects a replacement policy. */
  function PolicyName(p: ReplacementPolicy): string {
    match p
    case Random => "random"
    case Lru => "lru"
    case Lfu => "lfu"
  }

  /** The keywords that select a write policy. */
  function WritePolicyNames(wp: WritePolicy): set<string> {
    match wp
    case WriteBack => {"wb"}
    case WriteThroughNoAlloc => {"wt", "wtna"}
    case WriteThroughAlloc => {"wta"}
  }

  /** The keyword the usage message gives for each write policy. */
  function WritePolicyName(wp: WritePolicy): string {
    match wp
    case WriteBack => "wb"
    case WriteThroughNoAlloc => "wtna"
    case WriteThroughAlloc => "wta"
  }

  /** A replacement-policy keyword, compared ignoring case. */
  function PolicyFromName(word: string): (r: Option<ReplacementPolicy>)
    ensures forall p :: r == Some(p) <==> LowerString(word) == PolicyName(p)
  {
    var w := LowerString(word);
    if w == "random" then Some(Random)
    else if w == "lru" then Some(Lru)
    else if w == "lfu" then Some(Lfu)
    else None
  }

  /** A write-policy keyword, compared ignoring case. */
  function WritePolicyFromName(word: string): (r: Option<WritePolicy>)
    ensures forall wp :: r == Some(wp) <==> LowerString(word) in WritePolicyNames(wp)
  {
    var w := LowerString(word);
    if w == "wb" then Some(WriteBack)
    else if w == "wt" || w == "wtna" then Some(WriteThroughNoAlloc)
    else if w == "wta" then Some(WriteThroughAlloc)
    else None
  }

  /** The fields of CacheConfig that configure_cache sets. The setters
   *  take 32-bit unsigned values. */
  datatype CacheSettings = CacheSettings(
    enabled: bool,
    replacementPolicy: ReplacementPolicy,
    writePolicy: WritePolicy,
    setCount: u32,
    blockSize: u32,
    associativity: u32)

  /** The diagnostics of configure_cache all name the cache. */
  predicate NamesCache(e: CliError, which: string) {
    e in {CacheParameters(which), CachePolicy(which), CacheZeroComponent(which), CacheWritePolicy(which)}
  }

  /** The number a geometry piece gives: QString::toLong stored through
   *  an unsigned 32-bit setter. Text that is not a number gives 0. */
  function Component(piece: string, num: NumberSyntax): u32 {
    ToU32(num.toLong(piece))
  }

  /** Pieces that ApplyGeometry accepts: at least three, no zero among
   *  the first three, and a known write-policy keyword if there is a
   *  fourth. */
  predicate GeometryAccepted(pieces: seq<string>, num: NumberSyntax) {
    |pieces| >= 3
    && Component(pieces[0], num) != 0 && Component(pieces[1], num) != 0 && Component(pieces[2], num) != 0
    && (|pieces| > 3 ==> WritePolicyFromName(pieces[3]).Some?)
  }

  /** Geometry and write policy, once the policy keyword (if any) is gone. */
  function ApplyGeometry(c: CacheSettings, pieces: seq<string>, which: string, num: NumberSyntax)
    : (r: Outcome<CacheSettings>)
    ensures r.failure.Some? ==> NamesCache(r.failure.value, which)
    ensures r.failure.None? ==> r.state.setCount != 0 && r.state.blockSize != 0 && r.state.associativity != 0
    ensures r.state.enabled == c.enabled && r.state.replacementPolicy == c.replacementPolicy
    ensures r.failure.None? <==> GeometryAccepted(pieces, num)
    ensures |pieces| < 3 <==> r.failure == Some(CacheParameters(which))
    ensures |pieces| < 3 ==> r.state == c
    ensures |pieces| >= 3 ==>
              r.state.setCount == Component(pieces[0], num)
              && r.state.blockSize == Component(pieces[1], num)
              && r.state.associativity == Component(pieces[2], num)
    ensures |pieces| >= 3 ==>
              (r.failure == Some(CacheZeroComponent(which))
               <==> Component(pieces[0], num) == 0 || Component(pieces[1], num) == 0 || Component(pieces[2], num) == 0)
    ensures |pieces| > 3 && r.failure != Some(CacheZeroComponent(which)) ==>
              (r.failure == Some(CacheWritePolicy(which)) <==> WritePolicyFromName(pieces[3]).None?)
    ensures r.failure.None? ==>
              r.state.writePolicy == if |pieces| > 3 then WritePolicyFromName(pieces[3]).value else c.writePolicy
  {
    if |pieces| < 3 then Outcome(c, Some(CacheParameters(which)))
    else
      var c := c.(setCount := Component(pieces[0], num),
                  blockSize := Component(pieces[1], num),
                  associativity := Component(pieces[2], num));
      if c.setCount == 0 || c.blockSize == 0 || c.associativity == 0 then
        Outcome(c, Some(CacheZeroComponent(which)))
      else if |pieces| > 3 then
        match WritePolicyFromName(pieces[3])
        case None => Outcome(c, Some(CacheWritePolicy(which)))
        case Some(wp) => Outcome(c.(writePolicy := wp), None)
      else Outcome(c, None)
  }

  /** The pieces of a cache specification are at least three, and the
   *  first is either a number (it starts with a digit) or a known
   *  replacement-policy keyword. */
  predicate PolicyAccepted(pieces: seq<string>) {
    |pieces| >= 3 && pieces[0] != "" && (IsDigit(pieces[0][0]) || PolicyFromName(pieces[0]).Some?)
  }

  /** The pieces that hold the geometry: all of them when the first starts
   *  with a digit, the rest after a policy keyword otherwise. */
  function GeometryPieces(pieces: seq<string>): (g: seq<string>)
    ensures pieces != [] && pieces[0] != "" && !IsDigit(pieces[0][0]) ==> g == pieces[1..]
    ensures pieces == [] || pieces[0] == "" || IsDigit(pieces[0][0]) ==> g == pieces
  {
    if pieces != [] && pieces[0] != "" && !IsDigit(pieces[0][0]) then pieces[1..] else pieces
  }

  /** configure_cache: the settings after decoding the values given to a
   *  cache option (only the last one counts) and the first diagnostic. */
  function ApplyCacheSpec(c: CacheSettings, cachearg: seq<string>, which: string, num: NumberSyntax)
    : (r: Outcome<CacheSettings>)
    ensures cachearg == [] ==> r == Outcome(c, None)
    ensures cachearg != [] ==> r.state.enabled
    ensures r.failure.Some? ==> NamesCache(r.failure.value, which)
    ensures cachearg != [] && r.failure.None? ==>
              r.state.setCount != 0 && r.state.blockSize != 0 && r.state.associativity != 0
    ensures cachearg != [] ==>
              var pieces := Split(Last(cachearg), ',');
              (|pieces| < 3 || pieces[0] == "" ==> r.failure.Some?)
              && (|pieces| >= 3 && pieces[0] != "" && IsDigit(pieces[0][0]) ==>
                    r.state.replacementPolicy == c.replacementPolicy)
              && (|pieces| >= 3 && pieces[0] != "" && !IsDigit(pieces[0][0]) ==>
                    (PolicyFromName(pieces[0]).None? ==> r.failure == Some(CachePolicy(which)))
                    && (r.failure.None? ==> Some(r.state.replacementPolicy) == PolicyFromName(pieces[0])))
    ensures cachearg != [] ==>
              var pieces := Split(Last(cachearg), ',');
              |pieces| == 3 && pieces[0] != "" && PolicyFromName(pieces[0]).Some? ==>
                r.failure == Some(CacheParameters(which))
    ensures cachearg != [] ==>
              (r.failure.None? <==> PolicyAccepted(Split(Last(cachearg), ','))
                                    && GeometryAccepted(GeometryPieces(Split(Last(cachearg), ',')), num))
    ensures cachearg != [] ==>
              var pieces := Split(Last(cachearg), ',');
              (|pieces| < 3 ==> r.failure == Some(CacheParameters(which)))
              && (|pieces| >= 3 && pieces[0] == "" ==> r.failure == Some(CachePolicy(which)))
    ensures cachearg != [] && PolicyAccepted(Split(Last(cachearg), ',')) ==>
              var g := GeometryPieces(Split(Last(cachearg), ','));
              (|g| < 3 <==> r.failure == Some(CacheParameters(which)))
              && (|g| >= 3 ==>
                    (r.failure == Some(CacheZeroComponent(which))
                     <==> Component(g[0], num) == 0 || Component(g[1], num) == 0 || Component(g[2], num) == 0))
              && (|g| > 3 && r.failure != Some(CacheZeroComponent(which)) ==>
                    (r.failure == Some(CacheWritePolicy(which)) <==> WritePolicyFromName(g[3]).None?))
    ensures cachearg != [] && r.failure.None? ==>
              var g := GeometryPieces(Split(Last(cachearg), ','));
              r.state.setCount == Component(g[0], num)
              && r.state.blockSize == Component(g[1], num)
              && r.state.associativity == Component(g[2], num)
              && r.state.writePolicy == if |g| > 3 then WritePolicyFromName(g[3]).value else c.writePolicy
  {
    if cachearg == [] then Outcome(c, None)
    else
      var c := c.(enabled := true);
      var pieces := Split(Last(cachearg), ',');
      if |pieces| < 3 then Outcome(c, Some(CacheParameters(which)))
      else if pieces[0] == "" then Outcome(c, Some(CachePolicy(which)))
      else if !IsDigit(pieces[0][0]) then
        match PolicyFromName(pieces[0])
        case None => Outcome(c, Some(CachePolicy(which)))
        case Some(p) => ApplyGeometry(c.(replacementPolicy := p), pieces[1..], which, num)
      else ApplyGeometry(c, pieces, which, num)
  }

  /** Only the last value given to a cache option is decoded. */
  lemma CacheLastValueWins(c: CacheSettings, earlier: seq<string>, arg: string, which: string, num: NumberSyntax)
    ensures ApplyCacheSpec(c, earlier + [arg], which, num) == ApplyCacheSpec(c, [arg], which, num)
  {
    assert Last(earlier + [arg]) == arg == Last([arg]);
  }

  /** The text of a cache option with optional policy keywords. */
  function CacheSpecPieces(policy: Option<ReplacementPolicy>, sets: nat, block: nat, assoc: nat,
                           wp: Option<WritePolicy>): seq<string>
  {
    (if policy.Some? then [PolicyName(policy.value)] else [])
    + [Decimal(sets), Decimal(block), Decimal(assoc)]
    + (if wp.Some? then [WritePolicyName(wp.value)] else [])
  }

  function CacheSpecText(policy: Option<ReplacementPolicy>, sets: nat, block: nat, assoc: nat,
                         wp: Option<WritePolicy>): string
  {
    Join(CacheSpecPieces(policy, sets, block, assoc, wp), ',')
  }

  lemma PolicyNameIsLower(p: ReplacementPolicy)
    ensures LowerString(PolicyName(p)) == PolicyName(p)
    ensures !IsDigit(PolicyName(p)[0]) && ',' !in PolicyName(p)
  {
    var n := PolicyName(p);
    assert forall i :: 0 <= i < |n| ==> 'a' <= n[i] <= 'z';
    assert LowerString(n) == n;
  }

  lemma WritePolicyNameIsLower(wp: WritePolicy)
    ensures LowerString(WritePolicyName(wp)) == WritePolicyName(wp)
    ensures ',' !in WritePolicyName(wp)
  {
    var n := WritePolicyName(wp);
    assert forall i :: 0 <= i < |n| ==> 'a' <= n[i] <= 'z';
    assert LowerString(n) == n;
  }

  /** Writing a cache configuration out in the option's syntax and
   *  decoding it gives that configuration back, with the cache enabled;
   *  a policy left out keeps the current one. */
  lemma {:induction false} CacheSpecRoundTrip(c: CacheSettings, policy: Option<ReplacementPolicy>,
                                             sets: u32, block: u32, assoc: u32,
                                             wp: Option<WritePolicy>, which: string, num: NumberSyntax)
    requires sets != 0 && block != 0 && assoc != 0
    requires num.toLong(Decimal(sets)) == sets
    requires num.toLong(Decimal(block)) == block
    requires num.toLong(Decimal(assoc)) == assoc
    ensures ApplyCacheSpec(c, [CacheSpecText(policy, sets, block, assoc, wp)], which, num)
         == Outcome(c.(enabled := true,
                       replacementPolicy := policy.GetOr(c.replacementPolicy),
                       setCount := sets, blockSize := block, associativity := assoc,
                       writePolicy := wp.GetOr(c.writePolicy)), None)
  {
    var geometry := [Decimal(sets), Decimal(block), Decimal(assoc)];
    var tail := if wp.Some? then [WritePolicyName(wp.value)] else [];
    var pieces := CacheSpecPieces(policy, sets, block, assoc, wp);
    forall i | 0 <= i < |pieces| ensures ',' !in pieces[i] {
      if policy.Some? && i == 0 {
        PolicyNameIsLower(policy.value);
      } else if wp.Some? && i == |pieces| - 1 {
        WritePolicyNameIsLower(wp.value);
      } else {
        var d := pieces[i];
        assert d in geometry;
        assert forall k :: 0 <= k < |d| ==> IsDigit(d[k]);
      }
    }
    SplitJoin(pieces, ',');
    var arg := CacheSpecText(policy, sets, block, assoc, wp);
    assert Last([arg]) == arg;
    assert Split(arg, ',') == pieces;
    if wp.Some? {
      WritePolicyNameIsLower(wp.value);
    }
    if policy.Some? {
      PolicyNameIsLower(policy.value);
      assert pieces[1..] == geometry + tail;
    } else {
      assert pieces == geometry + tail;
    }
  }

  /** Pieces after the write policy are never looked at. */
  lemma {:induction false} CacheIgnoresTrailingPieces(c: CacheSettings, head: seq<string>, extra: seq<string>,
                                                     which: string, num: NumberSyntax)
    requires (|head| == 4 && head[0] != "" && IsDigit(head[0][0]))
          || (|head| == 5 && head[0] != "" && !IsDigit(head[0][0]))
    requires forall i :: 0 <= i < |head| ==> ',' !in head[i]
    requires forall i :: 0 <= i < |extra| ==> ',' !in extra[i]
    ensures ApplyCacheSpec(c, [Join(head + extra, ',')], which, num)
         == ApplyCacheSpec(c, [Join(head, ',')], which, num)
  {
    var all := head + extra;
    assert forall i :: 0 <= i < |all| ==> ',' !in all[i] by {
      forall i | 0 <= i < |all| ensures ',' !in all[i] {
        if i < |head| { assert all[i] == head[i]; } else { assert all[i] == extra[i - |head|]; }
      }
    }
    SplitJoin(all, ',');
    SplitJoin(head, ',');
    assert Last([Join(all, ',')]) == Join(all, ',');
    assert Last([Join(head, ',')]) == Join(head, ',');
    assert all[0] == head[0];
    var c1 := c.(enabled := true);
    if IsDigit(head[0][0]) {
      assert all[..4] == head;
      assert ApplyGeometry(c1, all, which, num) == ApplyGeometry(c1, head, which, num);
    } else {
      assert all[1..][..4] == head[1..];
      match PolicyFromName(head[0])
      case None =>
      case Some(p) =>
        assert ApplyGeometry(c1.(replacementPolicy := p), all[1..], which, num)
            == ApplyGeometry(c1.(replacementPolicy := p), head[1..], which, num);
    }
  }

  /** CacheConfig: one cache's configuration, changed through setters. */
  class CacheConfig {
    var enabled: bool
    var replacementPolicy: ReplacementPolicy
    var writePolicy: WritePolicy
    var setCount: u32
    var blockSize: u32
    var associativity: u32

    function Settings(): CacheSettings
      reads this
    {
      CacheSettings(enabled, replacementPolicy, writePolicy, setCount, blockSize, associativity)
    }

    constructor (s: CacheSettings)
      ensures Settings() == s
    {
      enabled := s.enabled;
      replacementPolicy := s.replacementPolicy;
      writePolicy := s.writePolicy;
      setCount := s.setCount;
      blockSize := s.blockSize;
      associativity := s.associativity;
    }

    /** configure_cache: decodes the last value of a cache option into
     *  this configuration; stops at the first diagnostic. */
    method Configure(cachearg: seq<string>, which: string, num: NumberSyntax)
      returns (failure: Option<CliError>)
      modifies this
      ensures Outcome(Settings(), failure) == ApplyCacheSpec(old(Settings()), cachearg, which, num)
    {
      if cachearg == [] {
        return None;
      }
      enabled := true;
      var pieces := Split(cachearg[|cachearg| - 1], ',');
      if |pieces| < 3 {
        return Some(CacheParameters(which));
      }
      if |pieces[0]| < 1 {
        return Some(CachePolicy(which));
      }
      if !IsDigit(pieces[0][0]) {
        var policy := PolicyFromName(pieces[0]);
        if policy.None? {
          return Some(CachePolicy(which));
        }
        replacementPolicy := policy.value;
        pieces := pieces[1..];
      }
      if |pieces| < 3 {
        return Some(CacheParameters(which));
      }
      setCount := ToU32(num.toLong(pieces[0]));
      blockSize := ToU32(num.toLong(pieces[1]));
      associativity := ToU32(num.toLong(pieces[2]));
      if setCount == 0 || blockSize == 0 || associativity == 0 {
        return Some(CacheZeroComponent(which));
      }
      if |pieces| > 3 {
        var wp := WritePolicyFromName(pieces[3]);
        if wp.None? {
          return Some(CacheWritePolicy(which));
        }
        writePolicy := wp.value;
      }
      return None;
    }
  }
}
