/**
  The configuration handling and request-participation decision of the
  lighttpd plugin mod_authn_jwt: merging configuration values into a
  `plugin_config`, resolving the configuration of one request from the
  global defaults and the conditional scopes that hold for it, seeding the
  defaults from the global scope, and the URI handler that rejects a matching
  request with 403.
 */
module AuthnJwt {
  import opened Lighttpd

  /** Key id of `authn_jwt.array`, the only key the plugin declares. */
  const KeyMatchArray: int := 0

  /** The status the URI handler sets on a request it takes part in. */
  const Forbidden: int := 403

  /** `plugin_config`: the `match` pointer, `None` standing for NULL. */
  datatype PluginConfig = PluginConfig(matchArray: Option<StringArray>)

  /** The configuration `calloc` produces: every pointer NULL. */
  const ZeroConfig: PluginConfig := PluginConfig(None)

  // ---------------------------------------------------------------------------
  // Merging configuration values

  /** `mod_authn_jwt_merge_config_cpv`: merge one value into `pconf`. */
  function MergeConfigCpv(pconf: PluginConfig, cpv: PluginValue): (r: PluginConfig)
    ensures cpv.kId == KeyMatchArray ==> r.matchArray == cpv.a
    ensures cpv.kId != KeyMatchArray ==> r == pconf
  {
    match cpv.kId
    case 0 => pconf.(matchArray := cpv.a)
    case _ => pconf
  }

  /** Merge the values of `s` into `c`, first to last. */
  function MergeValues(c: PluginConfig, s: seq<PluginValue>): PluginConfig {
    if s == [] then c else MergeConfigCpv(MergeValues(c, s[..|s| - 1]), s[|s| - 1])
  }

  /** The entry at `k` is the last one in `s` that sets `match`. */
  predicate IsLastSetter(s: seq<PluginValue>, k: int) {
    && 0 <= k < |s|
    && s[k].kId == KeyMatchArray
    && forall l :: k < l < |s| ==> s[l].kId != KeyMatchArray
  }

  /** No entry of `s` sets `match`. */
  predicate SetsNothing(s: seq<PluginValue>) {
    forall k :: 0 <= k < |s| ==> s[k].kId != KeyMatchArray
  }

  /** Merging a run is last-write-wins: the last `match` setter decides, and with none the config is unchanged. */
  lemma {:induction false} MergeValuesLastWins(c: PluginConfig, s: seq<PluginValue>)
    ensures SetsNothing(s) ==> MergeValues(c, s) == c
    ensures forall k :: IsLastSetter(s, k) ==> MergeValues(c, s).matchArray == s[k].a
  {
    if s != [] {
      var init := s[..|s| - 1];
      MergeValuesLastWins(c, init);
      if SetsNothing(s) {
        assert SetsNothing(init) by {
          forall k | 0 <= k < |init| ensures init[k].kId != KeyMatchArray {
            assert init[k] == s[k];
          }
        }
      }
      forall k | IsLastSetter(s, k) ensures MergeValues(c, s).matchArray == s[k].a {
        if k < |s| - 1 {
          assert IsLastSetter(init, k) by {
            forall l | k < l < |init| ensures init[l].kId != KeyMatchArray {
              assert init[l] == s[l];
            }
          }
        }
      }
    }
  }

  /** The values that a do-while walk begun at `start` merges. */
  function Run(cvlist: seq<PluginValue>, start: nat): seq<PluginValue>
    requires RunTerminated(cvlist, start)
  {
    cvlist[start..RunEnd(cvlist, start)]
  }

  /** The result of `mod_authn_jwt_merge_config(&c, cvlist + start)`. */
  function MergedRun(c: PluginConfig, cvlist: seq<PluginValue>, start: nat): PluginConfig
    requires RunTerminated(cvlist, start)
  {
    MergeValues(c, Run(cvlist, start))
  }

  /**
    `mod_authn_jwt_merge_config`: walk the values from `start` with a do-while
    loop, merging each, until the next entry is the sentinel. The config is
    passed in and handed back rather than written through a pointer.
   */
  method MergeConfig(pconf: PluginConfig, cvlist: seq<PluginValue>, start: nat) returns (r: PluginConfig)
    requires RunTerminated(cvlist, start)
    ensures r == MergedRun(pconf, cvlist, start)
    ensures SetsNothing(Run(cvlist, start)) ==> r == pconf
    ensures forall k :: IsLastSetter(Run(cvlist, start), k) ==> r.matchArray == Run(cvlist, start)[k].a
  {
    ghost var end := RunEnd(cvlist, start);
    var cpv := start;
    r := MergeConfigCpv(pconf, cvlist[cpv]);
    cpv := cpv + 1;
    assert cvlist[start..cpv] == [cvlist[start]];
    while cvlist[cpv].kId != Sentinel
      invariant start < cpv <= end
      invariant r == MergeValues(pconf, cvlist[start..cpv])
      decreases end - cpv
    {
      assert cvlist[start..cpv + 1][..cpv - start] == cvlist[start..cpv];
      r := MergeConfigCpv(r, cvlist[cpv]);
      cpv := cpv + 1;
    }
    MergeValuesLastWins(pconf, Run(cvlist, start));
  }

  /**
    A walk that begins on a sentinel does not stop there: the do-while merges
    the sentinel (a no-op) and carries on through the following run. This is
    why seeding the defaults checks the first entry before merging.
   */
  lemma MergedRunFromSentinel(c: PluginConfig, cvlist: seq<PluginValue>, start: nat)
    requires RunTerminated(cvlist, start + 1)
    requires cvlist[start].kId == Sentinel && cvlist[start + 1].kId != Sentinel
    ensures RunTerminated(cvlist, start)
    ensures MergedRun(c, cvlist, start) == MergedRun(c, cvlist, start + 1)
  {
    var e := RunEnd(cvlist, start + 1);
    assert RunEnd(cvlist, start) == e;
    MergeValuesShift(c, cvlist[start..e]);
    assert cvlist[start..e][1..] == cvlist[start + 1..e];
  }

  /** Merging a leading value that is not `match` has no effect on the rest. */
  lemma {:induction false} MergeValuesShift(c: PluginConfig, s: seq<PluginValue>)
    requires |s| > 0 && s[0].kId != KeyMatchArray
    ensures MergeValues(c, s) == MergeValues(c, s[1..])
  {
    if |s| > 1 {
      MergeValuesShift(c, s[..|s| - 1]);
      assert s[..|s| - 1][1..] == s[1..][..|s| - 2];
    }
  }

  // ---------------------------------------------------------------------------
  // Resolving the configuration of one request

  /** Header slot `i` is in scope: its condition holds for the request (the id cast to `uint32_t`). */
  predicate SlotActive(cvlist: seq<PluginValue>, i: nat, active: set<nat>)
    requires i < |cvlist|
  {
    ToUint32(cvlist[i].kId) in active
  }

  /**
    What `mod_authn_jwt_patch_config` leaves in `p->conf` after looking at the
    header slots `1..n-1`: the defaults, then the run of every slot whose
    condition holds, in increasing slot order.
   */
  function Resolved(defaults: PluginConfig, cvlist: seq<PluginValue>, n: nat, active: set<nat>): PluginConfig
    requires SlotsTerminated(cvlist, n)
    decreases n
  {
    if n <= 1 then defaults
    else
      var prev := Resolved(defaults, cvlist, n - 1, active);
      if SlotActive(cvlist, n - 1, active) then MergedRun(prev, cvlist, cvlist[n - 1].offset) else prev
  }

  /** The last slot leaves the result alone when it is out of scope or its run sets nothing. */
  lemma ResolvedSkipsSilentSlot(defaults: PluginConfig, cvlist: seq<PluginValue>, n: nat, active: set<nat>)
    requires SlotsTerminated(cvlist, n) && n > 1
    requires SlotActive(cvlist, n - 1, active) ==> SetsNothing(Run(cvlist, cvlist[n - 1].offset))
    ensures Resolved(defaults, cvlist, n, active) == Resolved(defaults, cvlist, n - 1, active)
  {
    if SlotActive(cvlist, n - 1, active) {
      MergeValuesLastWins(Resolved(defaults, cvlist, n - 1, active), Run(cvlist, cvlist[n - 1].offset));
    }
  }

  /** When no scope that holds sets `match`, the request gets exactly the defaults. */
  lemma {:induction false} ResolvedKeepsDefaults(defaults: PluginConfig, cvlist: seq<PluginValue>, n: nat, active: set<nat>)
    requires SlotsTerminated(cvlist, n)
    requires forall i :: 1 <= i < n && SlotActive(cvlist, i, active) ==> SetsNothing(Run(cvlist, cvlist[i].offset))
    ensures Resolved(defaults, cvlist, n, active) == defaults
  {
    if n > 1 {
      ResolvedKeepsDefaults(defaults, cvlist, n - 1, active);
      ResolvedSkipsSilentSlot(defaults, cvlist, n, active);
    }
  }

  /** When no condition of a slot `1..n-1` holds, the request gets exactly the defaults. */
  lemma {:induction false} ResolvedNoActiveSlot(defaults: PluginConfig, cvlist: seq<PluginValue>, n: nat, active: set<nat>)
    requires SlotsTerminated(cvlist, n)
    requires forall i :: 1 <= i < n ==> !SlotActive(cvlist, i, active)
    ensures Resolved(defaults, cvlist, n, active) == defaults
  {
    ResolvedKeepsDefaults(defaults, cvlist, n, active);
  }

  /**
    Later scopes override earlier ones: if slot `i` holds and sets `match`, and
    no later slot that holds sets it, the request's `match` is the last value
    slot `i`'s run gives it, whatever the defaults and earlier slots say.
   */
  lemma {:induction false} ResolvedLastActiveWins(defaults: PluginConfig, cvlist: seq<PluginValue>, n: nat, active: set<nat>, i: nat, k: nat)
    requires SlotsTerminated(cvlist, n)
    requires 1 <= i < n && SlotActive(cvlist, i, active)
    requires IsLastSetter(Run(cvlist, cvlist[i].offset), k)
    requires forall j :: i < j < n && SlotActive(cvlist, j, active) ==> SetsNothing(Run(cvlist, cvlist[j].offset))
    ensures Resolved(defaults, cvlist, n, active).matchArray == Run(cvlist, cvlist[i].offset)[k].a
  {
    if n - 1 == i {
      var run := Run(cvlist, cvlist[i].offset);
      var prev := Resolved(defaults, cvlist, i, active);
      assert Resolved(defaults, cvlist, n, active) == MergeValues(prev, run);
      MergeValuesLastWins(prev, run);
    } else {
      ResolvedLastActiveWins(defaults, cvlist, n - 1, active, i, k);
      ResolvedSkipsSilentSlot(defaults, cvlist, n, active);
    }
  }

  /** Whether `set_defaults` merges the global scope: it has values and its run does not begin with the sentinel. */
  predicate SeedsDefaults(cvlist: seq<PluginValue>, nconfig: nat)
    requires TableWellFormed(cvlist, nconfig)
  {
    nconfig > 0 && cvlist[0].count != 0 && cvlist[cvlist[0].offset].kId != Sentinel
  }

  /** The defaults after `set_defaults` has seeded `d` from the global scope. */
  function Seeded(d: PluginConfig, cvlist: seq<PluginValue>, nconfig: nat): PluginConfig
    requires TableWellFormed(cvlist, nconfig)
  {
    if SeedsDefaults(cvlist, nconfig) then MergedRun(d, cvlist, cvlist[0].offset) else d
  }

  /**
    Seeding takes the global scope's last `match` value; without global
    values, or when the global run is empty, the defaults stay as they were
    (NULL after allocation).
   */
  lemma SeededMatch(d: PluginConfig, cvlist: seq<PluginValue>, nconfig: nat)
    requires TableWellFormed(cvlist, nconfig)
    ensures !SeedsDefaults(cvlist, nconfig) ==> Seeded(d, cvlist, nconfig) == d
    ensures SeedsDefaults(cvlist, nconfig) && SetsNothing(Run(cvlist, cvlist[0].offset)) ==> Seeded(d, cvlist, nconfig) == d
    ensures SeedsDefaults(cvlist, nconfig) ==>
      forall k :: IsLastSetter(Run(cvlist, cvlist[0].offset), k) ==>
        Seeded(d, cvlist, nconfig).matchArray == Run(cvlist, cvlist[0].offset)[k].a
  {
    if SeedsDefaults(cvlist, nconfig) {
      MergeValuesLastWins(d, Run(cvlist, cvlist[0].offset));
    }
  }

  /** The request takes part: a `match` array is configured and one of its values ends the path. */
  predicate Participates(m: Option<StringArray>, path: string) {
    m.Some? && ArrayMatchValueSuffix(m.value, path).Some?
  }

  // ---------------------------------------------------------------------------
  // The plugin's state

  /** `plugin_data`: the server-built value list and the two configs. */
  class PluginData {
    var defaults: PluginConfig
    var conf: PluginConfig
    var cvlist: seq<PluginValue>
    var nconfig: nat

    ghost predicate Valid()
      reads this
    {
      TableWellFormed(cvlist, nconfig)
    }

    /** `mod_authn_jwt_init`: zero-initialised plugin data. */
    constructor ()
      ensures Valid()
      ensures defaults == ZeroConfig && conf == ZeroConfig
      ensures cvlist == [] && nconfig == 0
    {
      defaults := ZeroConfig;
      conf := ZeroConfig;
      cvlist := [];
      nconfig := 0;
    }

    /**
      `mod_authn_jwt_patch_config`: reset `conf` to the defaults, then merge
      the run of every header slot `1..nconfig-1` whose condition holds for `r`.
     */
    method PatchConfig(r: Request)
      requires Valid()
      modifies this`conf
      ensures conf == Resolved(defaults, cvlist, nconfig, r.conditions)
      ensures (forall i :: 1 <= i < nconfig ==> !SlotActive(cvlist, i, r.conditions)) ==> conf == defaults
    {
      conf := defaults;
      var i, used := 1, nconfig;
      while i < used
        invariant 1 <= i && (i <= used || i == 1)
        invariant conf == Resolved(defaults, cvlist, i, r.conditions)
      {
        if ConfigCheckCond(r, ToUint32(cvlist[i].kId)) {
          conf := MergeConfig(conf, cvlist, cvlist[i].offset);
        }
        i := i + 1;
      }
      if (forall i :: 1 <= i < nconfig ==> !SlotActive(cvlist, i, r.conditions)) {
        ResolvedNoActiveSlot(defaults, cvlist, nconfig, r.conditions);
      }
    }

    /**
      The defaults-seeding part of `mod_authn_jwt_set_defaults`. `values` is
      what `config_plugin_values_init` produced, `None` when it failed.
     */
    method SetDefaults(values: Option<ConfigTable>) returns (h: HandlerResult)
      requires values.Some? ==> TableWellFormed(values.value.cvlist, values.value.nconfig)
      modifies this
      ensures values.None? ==> h == HandlerError && unchanged(this)
      ensures values.Some? ==> h == HandlerGoOn && Valid()
      ensures values.Some? ==> cvlist == values.value.cvlist && nconfig == values.value.nconfig
      ensures values.Some? ==> defaults == Seeded(old(defaults), cvlist, nconfig)
      ensures conf == old(conf)
    {
      if values.None? {
        return HandlerError;
      }
      cvlist, nconfig := values.value.cvlist, values.value.nconfig;
      if nconfig > 0 && cvlist[0].count != 0 {
        var cpv := cvlist[0].offset;
        if Sentinel != cvlist[cpv].kId {
          defaults := MergeConfig(defaults, cvlist, cpv);
        }
      }
      return HandlerGoOn;
    }

    /**
      `mod_authn_jwt_uri_handler`: decide whether the plugin takes part in the
      request and, if it does, answer 403 and finish the request.
     */
    method UriHandler(r: Request) returns (h: HandlerResult)
      requires Valid()
      modifies this`conf, r`httpStatus
      ensures r.handlerModuleSet || BufferIsBlank(r.uriPath) ==> conf == old(conf)
      ensures !r.handlerModuleSet && !BufferIsBlank(r.uriPath) ==> conf == Resolved(defaults, cvlist, nconfig, r.conditions)
      ensures h == HandlerFinished <==>
        !r.handlerModuleSet && !BufferIsBlank(r.uriPath) && Participates(Resolved(defaults, cvlist, nconfig, r.conditions).matchArray, r.uriPath)
      ensures h != HandlerFinished ==> h == HandlerGoOn && r.httpStatus == old(r.httpStatus)
      ensures h == HandlerFinished ==> r.httpStatus == Forbidden
    {
      if r.handlerModuleSet {
        return HandlerGoOn;
      }
      if BufferIsBlank(r.uriPath) {
        return HandlerGoOn;
      }
      PatchConfig(r);
      if conf.matchArray.None? || ArrayMatchValueSuffix(conf.matchArray.value, r.uriPath).None? {
        return HandlerGoOn;
      }
      r.httpStatus := Forbidden;
      return HandlerFinished;
    }
  }

  /** Resolving twice for the same request gives the same configuration: `patch_config` starts from the defaults each time. */
  method PatchConfigIdempotent(p: PluginData, r: Request) returns (first: PluginConfig, second: PluginConfig)
    requires p.Valid()
    modifies p`conf
    ensures first == second && p.conf == second
  {
    p.PatchConfig(r);
    first := p.conf;
    p.PatchConfig(r);
    second := p.conf;
  }
}
