/**
  The parts of lighttpd that mod_authn_jwt consumes: the handler result codes,
  the layout of the per-plugin configuration value list built by the server's
  configuration engine, the request fields the plugin reads and writes, and
  stand-ins for the buffer and array helpers the plugin calls.
 */
module Lighttpd {

  datatype Option<+T> = None | Some(value: T)

  /** The directive a plugin callback returns to the server. */
  datatype HandlerResult = HandlerGoOn | HandlerFinished | HandlerError

  /** A lighttpd `array` of string values, as used by a `*.array` directive. */
  type StringArray = seq<string>

  const Uint32Modulus: int := 0x1_0000_0000

  /** The C conversion of an `int` to `uint32_t`: reduction modulo 2^32. */
  function ToUint32(x: int): (r: nat)
    ensures r < Uint32Modulus
    ensures 0 <= x < Uint32Modulus ==> r == x
    ensures x < 0 && -Uint32Modulus <= x ==> r == x + Uint32Modulus
  {
    x % Uint32Modulus
  }

  /**
    One `config_plugin_value_t`. The C union `v` is flattened: `a` is `v.a`
    (the array pointer, `None` standing for NULL) and `offset`/`count` are
    `v.u2[0]`/`v.u2[1]`. A header entry (index below `nconfig`) carries a
    condition id in `kId` and locates its run of values with `offset` and
    `count`; a value entry carries a key id in `kId`; `kId == -1` ends a run.
   */
  datatype PluginValue = PluginValue(kId: int, a: Option<StringArray>, offset: nat, count: nat)

  const Sentinel: int := -1

  /** Some entry at or after `j` ends a run. */
  predicate HasSentinelFrom(cvlist: seq<PluginValue>, j: nat) {
    exists k :: j <= k < |cvlist| && cvlist[k].kId == Sentinel
  }

  /** A run starting at `start` can be walked by a do-while loop: the first entry exists and a sentinel follows. */
  predicate RunTerminated(cvlist: seq<PluginValue>, start: nat) {
    start < |cvlist| && HasSentinelFrom(cvlist, start + 1)
  }

  /** The first sentinel at or after `j`. */
  function NextSentinel(cvlist: seq<PluginValue>, j: nat): (e: nat)
    requires HasSentinelFrom(cvlist, j)
    ensures j <= e < |cvlist| && cvlist[e].kId == Sentinel
    ensures forall k :: j <= k < e ==> cvlist[k].kId != Sentinel
    decreases |cvlist| - j
  {
    if cvlist[j].kId == Sentinel then j
    else
      assert HasSentinelFrom(cvlist, j + 1) by {
        var k :| j <= k < |cvlist| && cvlist[k].kId == Sentinel;
        assert j + 1 <= k;
      }
      NextSentinel(cvlist, j + 1)
  }

  /** The index of the sentinel that stops a do-while walk begun at `start`. */
  function RunEnd(cvlist: seq<PluginValue>, start: nat): (e: nat)
    requires RunTerminated(cvlist, start)
  {
    NextSentinel(cvlist, start + 1)
  }

  /** Every header slot `1..n-1` points at a run that can be walked. */
  predicate SlotsTerminated(cvlist: seq<PluginValue>, n: nat) {
    && (n <= 1 || n <= |cvlist|)
    && forall i :: 1 <= i < n ==> RunTerminated(cvlist, cvlist[i].offset)
  }

  /**
    What the configuration engine guarantees of `cvlist` and `nconfig`: the
    conditional slots point at terminated runs, and when the global slot 0 has
    values, its run starts inside the list and is terminated unless it begins
    with the sentinel.
   */
  predicate TableWellFormed(cvlist: seq<PluginValue>, nconfig: nat) {
    && nconfig <= |cvlist|
    && SlotsTerminated(cvlist, nconfig)
    && (nconfig > 0 && cvlist[0].count != 0 ==>
          && cvlist[0].offset < |cvlist|
          && (cvlist[cvlist[0].offset].kId != Sentinel ==> RunTerminated(cvlist, cvlist[0].offset)))
  }

  /** The value list and slot count produced by `config_plugin_values_init`. */
  datatype ConfigTable = ConfigTable(cvlist: seq<PluginValue>, nconfig: nat)

  /** `v` ends `b`, compared `char` by `char`; this is the `memcmp` comparison when each byte is read as one `char`. */
  predicate IsSuffix(v: string, b: string) {
    |v| <= |b| && b[|b| - |v|..] == v
  }

  /**
    Stand-in for `array_match_value_suffix`: the first element of `a` that is a
    suffix of `b` (its index standing for the returned element pointer), or
    `None` (NULL) when no element is.
   */
  function ArrayMatchValueSuffix(a: StringArray, b: string): (r: Option<nat>)
    ensures r.Some? ==> r.value < |a| && IsSuffix(a[r.value], b)
    ensures r.Some? ==> forall i :: 0 <= i < r.value ==> !IsSuffix(a[i], b)
    ensures r.None? <==> forall i :: 0 <= i < |a| ==> !IsSuffix(a[i], b)
  {
    if a == [] then None
    else if IsSuffix(a[0], b) then Some(0)
    else
      match ArrayMatchValueSuffix(a[1..], b)
      case None => None
      case Some(i) => Some(i + 1)
  }

  /** Stand-in for `buffer_is_blank`: the buffer holds no characters. */
  predicate BufferIsBlank(b: string) {
    |b| == 0
  }

  /** The fields of `request_st` that the plugin reads or writes. */
  class Request {
    /** `r->handler_module != NULL`: another module already handles the request. */
    var handlerModuleSet: bool
    /** `r->uri.path`. */
    var uriPath: string
    /** `r->http_status`. */
    var httpStatus: int
    /** The ids of the configuration conditions that hold for this request. */
    var conditions: set<nat>

    constructor (handlerModuleSet: bool, uriPath: string, conditions: set<nat>)
      ensures this.handlerModuleSet == handlerModuleSet && this.uriPath == uriPath
      ensures this.conditions == conditions && httpStatus == 0
    {
      this.handlerModuleSet := handlerModuleSet;
      this.uriPath := uriPath;
      this.conditions := conditions;
      httpStatus := 0;
    }
  }

  /** Stand-in for `config_check_cond`: condition `condId` holds for `r`. */
  predicate ConfigCheckCond(r: Request, condId: nat)
    reads r
  {
    condId in r.conditions
  }
}
