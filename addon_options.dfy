/**
 * The Home Assistant add-on launcher (`run_addon.py`): the `tvs` list of the
 * add-on options is checked and every entry gets its defaults, producing one
 * bridge configuration per TV.
 */
module AddonOptions {
  import opened Wrappers
  import opened Json
  import opened Text

  const DefaultTvPort: int := 3001
  const DefaultUseSsl: bool := true
  const DefaultListenBase: int := 8777

  /** One bridge configuration; `origin` is JNull when none is configured. */
  datatype TvConfig = TvConfig(name: Json, host: string, listenPort: int, tvPort: int, useSsl: bool, origin: Json)

  /** Why the options are rejected; the per-entry errors carry the entry's index. */
  datatype OptionsError =
    | OptionsNotAnObject
    | TvsNotAList
    | EntryNotAnObject(idx: nat)
    | MissingHost(idx: nat)
    | BadNumber(idx: nat, key: string)
  {
    predicate PerEntry() {
      EntryNotAnObject? || MissingHost? || BadNumber?
    }
  }

  /** The message of the ValueError raised for an entry without a usable host. */
  function MissingHostMessage(idx: nat): (msg: string)
    ensures '\n' !in msg
  {
    "TV entry " + IntToString(idx) + " is missing a valid 'host'"
  }

  /** The message names the entry: the digits after "TV entry " read back as its position. */
  lemma MissingHostNamesEntry(idx: nat)
    ensures var msg := MissingHostMessage(idx);
      |msg| > 9 && msg[..9] == "TV entry " && ParseNat(LeadingDigits(msg[9..])) == idx
  {
    var msg := MissingHostMessage(idx);
    assert msg[9..] == NatToString(idx) + " is missing a valid 'host'";
    LeadingDigitsOf(NatToString(idx), " is missing a valid 'host'");
    NatRoundTrip(idx);
  }

  /**
   * `load_options` on the decoded options: a missing or falsy `tvs` is an
   * empty list, anything else that is not a list is rejected.
   */
  function LoadTvs(data: Json): (r: Result<seq<Json>, OptionsError>)
    ensures r.Failure? <==> !data.JObj? || (Truthy(GetOr(data.fields, "tvs", JNull)) && !GetOr(data.fields, "tvs", JNull).JArr?)
    ensures r.Failure? && data.JObj? ==> r.error == TvsNotAList
    ensures data.JObj? && !Truthy(GetOr(data.fields, "tvs", JNull)) ==> r == Success([])
    ensures data.JObj? && "tvs" in data.fields && data.fields["tvs"].JArr? ==> r == Success(data.fields["tvs"].items)
  {
    if !data.JObj? then Failure(OptionsNotAnObject)
    else
      var tvs := GetOr(data.fields, "tvs", JNull);
      if !Truthy(tvs) then Success([])
      else if !tvs.JArr? then Failure(TvsNotAList)
      else Success(tvs.items)
  }

  /** `tv.get(key) or default`. */
  function OrDefault(fields: map<string, Json>, key: string, default: Json): (v: Json)
    ensures Truthy(GetOr(fields, key, JNull)) ==> v == fields[key]
    ensures !Truthy(GetOr(fields, key, JNull)) ==> v == default
  {
    var v := GetOr(fields, key, JNull);
    if Truthy(v) then v else default
  }

  predicate ValidHost(fields: map<string, Json>) {
    "host" in fields && fields["host"].JStr? && fields["host"].s != ""
  }

  /** A port entry `int()` accepts: falsy (the default is used) or convertible. */
  predicate PortConverts(fields: map<string, Json>, key: string) {
    !Truthy(GetOr(fields, key, JNull)) || IntOf(GetOr(fields, key, JNull)).Some?
  }

  /** One iteration of `build_tv_configs`, for entry `tv` at position `idx`. */
  function EntryConfig(tv: Json, idx: nat): (r: Result<TvConfig, OptionsError>)
    ensures r.Success? <==>
              tv.JObj? && ValidHost(tv.fields) && PortConverts(tv.fields, "listen_port") && PortConverts(tv.fields, "tv_port")
    ensures r.Failure? ==> r.error.PerEntry() && r.error.idx == idx
    ensures !tv.JObj? ==> r == Failure(EntryNotAnObject(idx))
    ensures tv.JObj? && !ValidHost(tv.fields) ==> r == Failure(MissingHost(idx))
    ensures tv.JObj? && ValidHost(tv.fields) && "listen_port" !in tv.fields && "tv_port" !in tv.fields ==> r.Success?
    ensures (tv.JObj? && ValidHost(tv.fields) && Truthy(GetOr(tv.fields, "listen_port", JNull))
             && IntOf(GetOr(tv.fields, "listen_port", JNull)).None?) ==> r == Failure(BadNumber(idx, "listen_port"))
    ensures (tv.JObj? && ValidHost(tv.fields) && PortConverts(tv.fields, "listen_port")
             && !PortConverts(tv.fields, "tv_port")) ==> r == Failure(BadNumber(idx, "tv_port"))
    ensures r.Success? ==> tv.JObj? && Defaulted(tv.fields, idx, r.value)
  {
    if !tv.JObj? then Failure(EntryNotAnObject(idx))
    else
      var f := tv.fields;
      if !ValidHost(f) then Failure(MissingHost(idx))
      else
        var name := OrDefault(f, "name", JStr("tv" + IntToString(idx + 1)));
        var listenPort := OrDefault(f, "listen_port", JNum((DefaultListenBase + idx) as real));
        var tvPort := OrDefault(f, "tv_port", JNum(DefaultTvPort as real));
        var useSsl := GetOr(f, "use_ssl", JNull);
        var origin := GetOr(f, "origin", JNull);
        match (IntOf(listenPort), IntOf(tvPort))
        case (None, _) => Failure(BadNumber(idx, "listen_port"))
        case (_, None) => Failure(BadNumber(idx, "tv_port"))
        case (Some(lp), Some(tp)) =>
          Success(TvConfig(name, f["host"].s, lp, tp, if useSsl == JNull then DefaultUseSsl else Truthy(useSsl), origin))
  }

  /**
   * What an accepted entry's configuration keeps from the entry and which
   * defaults it takes: a falsy name, listen port or TV port gets its default,
   * `use_ssl` only when absent or null, and the origin is kept as given.
   */
  predicate Defaulted(f: map<string, Json>, idx: nat, c: TvConfig) {
    && ValidHost(f) && c.host == f["host"].s
    && (Truthy(GetOr(f, "name", JNull)) ==> c.name == f["name"])
    && (!Truthy(GetOr(f, "name", JNull)) ==> c.name == JStr("tv" + IntToString(idx + 1)))
    && (Truthy(GetOr(f, "listen_port", JNull)) ==> IntOf(GetOr(f, "listen_port", JNull)) == Some(c.listenPort))
    && (!Truthy(GetOr(f, "listen_port", JNull)) ==> c.listenPort == DefaultListenBase + idx)
    && (Truthy(GetOr(f, "tv_port", JNull)) ==> IntOf(GetOr(f, "tv_port", JNull)) == Some(c.tvPort))
    && (!Truthy(GetOr(f, "tv_port", JNull)) ==> c.tvPort == DefaultTvPort)
    && (GetOr(f, "use_ssl", JNull) == JNull ==> c.useSsl == DefaultUseSsl)
    && (GetOr(f, "use_ssl", JNull) != JNull ==> c.useSsl == Truthy(f["use_ssl"]))
    && c.origin == GetOr(f, "origin", JNull)
  }

  /** The configurations of the first n entries, when all of them are accepted. */
  predicate AllAccepted(tvs: seq<Json>, n: nat)
    requires n <= |tvs|
  {
    forall j :: 0 <= j < n ==> EntryConfig(tvs[j], j).Success?
  }

  /**
   * `build_tv_configs`: one configuration per entry, in order; the first
   * rejected entry stops the loop and nothing is returned.
   */
  method BuildTvConfigs(tvs: seq<Json>) returns (r: Result<seq<TvConfig>, OptionsError>)
    ensures r.Success? ==>
              && AllAccepted(tvs, |tvs|)
              && |r.value| == |tvs|
              && forall i :: 0 <= i < |tvs| ==> r.value[i] == EntryConfig(tvs[i], i).value
    ensures r.Failure? ==>
              && r.error.PerEntry() && r.error.idx < |tvs|
              && AllAccepted(tvs, r.error.idx)
              && EntryConfig(tvs[r.error.idx], r.error.idx) == Failure(r.error)
  {
    var configs: seq<TvConfig> := [];
    var idx := 0;
    while idx < |tvs|
      invariant 0 <= idx <= |tvs|
      invariant AllAccepted(tvs, idx)
      invariant |configs| == idx
      invariant forall i :: 0 <= i < idx ==> configs[i] == EntryConfig(tvs[i], i).value
    {
      var entry := EntryConfig(tvs[idx], idx);
      if entry.Failure? {
        return Failure(entry.error);
      }
      configs := configs + [entry.value];
      idx := idx + 1;
    }
    return Success(configs);
  }

  /** Every accepted list of entries yields configurations with the distinct default ports of their positions. */
  lemma DefaultListenPortsDistinct(tvs: seq<Json>, configs: seq<TvConfig>, i: nat, j: nat)
    requires |configs| == |tvs| && i < j < |tvs|
    requires forall k :: 0 <= k < |tvs| ==> EntryConfig(tvs[k], k) == Success(configs[k])
    requires tvs[i].JObj? && !Truthy(GetOr(tvs[i].fields, "listen_port", JNull))
    requires tvs[j].JObj? && !Truthy(GetOr(tvs[j].fields, "listen_port", JNull))
    ensures configs[i].listenPort < configs[j].listenPort
  {
    assert EntryConfig(tvs[i], i) == Success(configs[i]);
    assert EntryConfig(tvs[j], j) == Success(configs[j]);
  }
}
