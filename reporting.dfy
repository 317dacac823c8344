/** Result reporting (`AnsiblePlaybook.summarize`, `AnsiblePlaybook.metadata`): the
    engine's per-host counters reduced to failed and unreachable host lists, and the
    status code and `{name, value}` list handed back to the pipeline. */
module Reporting {
  import opened Wrappers
  import opened PyValues

  /** The engine's aggregate statistics: per-host counters, each an ordered dict from
      host name to count. `dark` counts unreachable tasks; `processed` lists every host. */
  datatype Stats = Stats(
    processed: seq<(string, int)>,
    failures: seq<(string, int)>,
    ok: seq<(string, int)>,
    dark: seq<(string, int)>,
    changed: seq<(string, int)>,
    skipped: seq<(string, int)>)

  /** The dict `summarize` returns, field by field in its key order. `hostsAll` is
      the `dict_keys` view of `processed`. */
  datatype Summary = Summary(
    hostsAll: seq<string>,
    hostsFailed: seq<string>,
    hostsUnreachable: seq<string>,
    processed: seq<(string, int)>,
    failures: seq<(string, int)>,
    ok: seq<(string, int)>,
    dark: seq<(string, int)>,
    changed: seq<(string, int)>,
    skipped: seq<(string, int)>)

  /** One `{"name": ..., "value": ...}` metadata entry. */
  datatype Entry = Entry(name: string, value: string)

  /** The hosts of `hosts`, in order, whose count in `counters` is above zero; a host
      missing from `counters` counts zero. */
  function Positive(hosts: seq<string>, counters: seq<(string, int)>): seq<string>
    decreases |hosts|
  {
    if hosts == [] then []
    else
      var h := hosts[|hosts| - 1];
      Positive(hosts[..|hosts| - 1], counters) + (if GetOr(counters, h, 0) > 0 then [h] else [])
  }

  /** `Positive` is the list comprehension `[h for h in hosts if counters.get(h, 0) > 0]`:
      a sub-list of `hosts` in the same order, holding exactly the hosts with a positive count. */
  lemma {:induction false} PositiveIsFilter(hosts: seq<string>, counters: seq<(string, int)>)
    ensures Positive(hosts, counters) == Filter(hosts, (h: string) => GetOr(counters, h, 0) > 0)
    ensures forall h :: h in Positive(hosts, counters) <==> h in hosts && GetOr(counters, h, 0) > 0
    decreases |hosts|
  {
    if hosts != [] {
      var init := hosts[..|hosts| - 1];
      var h := hosts[|hosts| - 1];
      assert hosts == init + [h];
      PositiveIsFilter(init, counters);
      FilterAppend(init, h, (h: string) => GetOr(counters, h, 0) > 0);
    }
  }

  /** `summarize`: one pass over the processed hosts. */
  method Summarize(stats: Stats) returns (s: Summary)
    ensures s.hostsAll == Keys(stats.processed)
    ensures s.hostsFailed == Positive(s.hostsAll, stats.failures)
    ensures s.hostsUnreachable == Positive(s.hostsAll, stats.dark)
    ensures s.processed == stats.processed && s.failures == stats.failures && s.ok == stats.ok
    ensures s.dark == stats.dark && s.changed == stats.changed && s.skipped == stats.skipped
  {
    var failed: seq<string> := [];
    var unreachable: seq<string> := [];
    var hosts := Keys(stats.processed);
    for i := 0 to |hosts|
      invariant failed == Positive(hosts[..i], stats.failures)
      invariant unreachable == Positive(hosts[..i], stats.dark)
    {
      var h := hosts[i];
      // the `failures` and `unreachable` counts of `stats.summarize(h)`
      var failures := GetOr(stats.failures, h, 0);
      var unreachableCount := GetOr(stats.dark, h, 0);
      if failures > 0 {
        failed := failed + [h];
      }
      if unreachableCount > 0 {
        unreachable := unreachable + [h];
      }
      assert hosts[..i + 1][..i] == hosts[..i];
    }
    assert hosts[..|hosts|] == hosts;
    s := Summary(hosts, failed, unreachable, stats.processed, stats.failures, stats.ok,
                 stats.dark, stats.changed, stats.skipped);
  }

  /** The failed and the unreachable hosts are exactly the processed hosts with a
      positive `failures` or `dark` count, each list in processed order. */
  lemma SummaryHosts(stats: Stats, h: string)
    ensures var hosts := Keys(stats.processed);
      && (h in Positive(hosts, stats.failures) <==> h in hosts && GetOr(stats.failures, h, 0) > 0)
      && (h in Positive(hosts, stats.dark) <==> h in hosts && GetOr(stats.dark, h, 0) > 0)
      && |Positive(hosts, stats.failures)| <= |hosts|
      && |Positive(hosts, stats.dark)| <= |hosts|
  {
    PositiveIsFilter(Keys(stats.processed), stats.failures);
    PositiveIsFilter(Keys(stats.processed), stats.dark);
  }

  // ----- metadata -----

  function StrList(hosts: seq<string>): Value {
    VList(seq(|hosts|, k requires 0 <= k < |hosts| => VStr(hosts[k])))
  }

  function Counters(counts: seq<(string, int)>): Value {
    VDict(seq(|counts|, k requires 0 <= k < |counts| => (counts[k].0, VInt(counts[k].1))))
  }

  /** The names of the summary's fields, in its key order. */
  const RESULT_KEYS: seq<string> :=
    ["hosts_all", "hosts_failed", "hosts_unreachable", "processed", "failures", "ok", "dark", "changed", "skipped"]

  /** `(str(k), str(result[k]))` for each key of the summary, in order. */
  function ResultItems(s: Summary): seq<(string, string)> {
    [ ("hosts_all", "dict_keys(" + Repr(StrList(s.hostsAll)) + ")"),
      ("hosts_failed", Str(StrList(s.hostsFailed))),
      ("hosts_unreachable", Str(StrList(s.hostsUnreachable))),
      ("processed", Str(Counters(s.processed))),
      ("failures", Str(Counters(s.failures))),
      ("ok", Str(Counters(s.ok))),
      ("dark", Str(Counters(s.dark))),
      ("changed", Str(Counters(s.changed))),
      ("skipped", Str(Counters(s.skipped))) ]
  }

  /** The status code `metadata` derives from the engine's return code. */
  function StatusCode(rcode: int, s: Summary): int {
    if rcode != 0 then rcode
    else if |s.hostsUnreachable| > 0 then 3
    else if |s.hostsFailed| > 0 then 2
    else 0
  }

  /** A failed run keeps its return code; a successful one is 3 exactly when a host
      was unreachable, 2 exactly when hosts failed and none was unreachable, and 0
      exactly when no host failed or was unreachable. */
  lemma StatusCodeMeaning(rcode: int, s: Summary)
    ensures rcode != 0 ==> StatusCode(rcode, s) == rcode
    ensures rcode == 0 ==> (StatusCode(rcode, s) == 3 <==> s.hostsUnreachable != [])
    ensures rcode == 0 ==> (StatusCode(rcode, s) == 2 <==> s.hostsUnreachable == [] && s.hostsFailed != [])
    ensures rcode == 0 ==> (StatusCode(rcode, s) == 0 <==> s.hostsUnreachable == [] && s.hostsFailed == [])
    ensures StatusCode(rcode, s) == 0 <==> rcode == 0 && s.hostsUnreachable == [] && s.hostsFailed == []
  {
  }

  function EntriesOf(items: seq<(string, string)>): (es: seq<Entry>)
    ensures |es| == |items|
    ensures forall k :: 0 <= k < |items| ==> es[k] == Entry(items[k].0, items[k].1)
  {
    seq(|items|, k requires 0 <= k < |items| => Entry(items[k].0, items[k].1))
  }

  /** `metadata`: the status code, and one entry per summary key followed by the status code entry. */
  method Metadata(rcode: int, result: Summary) returns (status: int, metadata: seq<Entry>)
    ensures status == StatusCode(rcode, result)
    ensures metadata == EntriesOf(ResultItems(result)) + [Entry("statuscode", IntToString(status))]
  {
    if rcode == 0 {
      status := 0;
      if |result.hostsFailed| > 0 {
        status := 2;
      }
      if |result.hostsUnreachable| > 0 {
        status := 3;
      }
    } else {
      status := rcode;
    }
    metadata := ListEntries(ResultItems(result));
    metadata := metadata + [Entry("statuscode", IntToString(status))];
  }

  /** The loop of `metadata` over the summary's items. */
  method ListEntries(items: seq<(string, string)>) returns (metadata: seq<Entry>)
    ensures metadata == EntriesOf(items)
  {
    metadata := [];
    for i := 0 to |items|
      invariant metadata == EntriesOf(items[..i])
    {
      metadata := metadata + [Entry(items[i].0, items[i].1)];
    }
    assert items[..|items|] == items;
  }

  /** The metadata lists the summary's keys in order, then `statuscode`, whose value
      reads back as the status code. */
  lemma MetadataShape(rcode: int, result: Summary)
    ensures var md := EntriesOf(ResultItems(result)) + [Entry("statuscode", IntToString(StatusCode(rcode, result)))];
      && |md| == |RESULT_KEYS| + 1
      && (forall k :: 0 <= k < |RESULT_KEYS| ==> md[k].name == RESULT_KEYS[k])
      && md[|md| - 1].name == "statuscode"
      && ParseInt(md[|md| - 1].value) == Some(StatusCode(rcode, result))
  {
    var status := StatusCode(rcode, result);
    IntToStringRoundTrip(status);
    ResultKeys(result);
    EntriesNamed(ResultItems(result), RESULT_KEYS, IntToString(status));
  }

  /** The summary's items come in the order of `RESULT_KEYS`. */
  lemma ResultKeys(s: Summary)
    ensures |ResultItems(s)| == |RESULT_KEYS|
    ensures forall k :: 0 <= k < |RESULT_KEYS| ==> ResultItems(s)[k].0 == RESULT_KEYS[k]
  {
  }

  lemma EntriesNamed(items: seq<(string, string)>, names: seq<string>, status: string)
    requires |items| == |names|
    requires forall k :: 0 <= k < |names| ==> items[k].0 == names[k]
    ensures var md := EntriesOf(items) + [Entry("statuscode", status)];
      && |md| == |names| + 1
      && (forall k :: 0 <= k < |names| ==> md[k].name == names[k])
      && md[|md| - 1] == Entry("statuscode", status)
  {
  }
}
