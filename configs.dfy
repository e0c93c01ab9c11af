/**
 * Configuration introspection: which resolved configuration values are reported, and how
 * each reported value becomes a `(name, text)` pair.
 */
module Configs {
  import opened Vectors

  /** The layer a configuration value came from; only `Default` matters to the filter. */
  datatype ConfigSource = Default | EnvBase | User | Repo | EnvOverrides | CommandArg

  /** A configuration name as a path of table keys, e.g. `["ui", "editor"]`. */
  type ConfigName = seq<string>

  /**
   * One resolved value as the configuration library annotates it. `V` stands for the
   * library's structured value (string, integer, array, table), which is kept abstract.
   */
  datatype AnnotatedValue<V> = AnnotatedValue(
    name: ConfigName,
    value: V,
    source: ConfigSource,
    isOverridden: bool)

  /** The whitespace decoration a value is printed with. */
  datatype Decor = Decor(prefix: string, suffix: string)

  /** The empty decoration, `decorated("", "")`. */
  const NoDecor := Decor("", "")

  /** The test of the first `retain`. */
  function NotOverridden<V>(v: AnnotatedValue<V>): bool
  {
    !v.isOverridden
  }

  /** The test of the second `retain`. */
  function NotFromDefault<V>(v: AnnotatedValue<V>): bool
  {
    v.source != Default
  }

  /** A value that is reported: not overridden by a later layer, and not a built-in default. */
  function Reported<V>(v: AnnotatedValue<V>): bool
  {
    NotOverridden(v) && NotFromDefault(v)
  }

  /** What `resolve_configs` returns for the library's list `values`: the two filters in turn. */
  function ResolvedConfigs<V>(values: seq<AnnotatedValue<V>>): seq<AnnotatedValue<V>>
  {
    Filter(Filter(values, NotOverridden), NotFromDefault)
  }

  /**
   * `resolve_configs`, given the list of annotated values the library resolved: the list is
   * filtered in place, first dropping overridden values, then values from the defaults layer.
   */
  method ResolveConfigs<V>(values: seq<AnnotatedValue<V>>) returns (r: seq<AnnotatedValue<V>>)
    ensures r == ResolvedConfigs(values)
    ensures forall i :: 0 <= i < |r| ==> !r[i].isOverridden && r[i].source != Default
    ensures Subsequence(r, values)
  {
    var annotated := new Vec.FromSeq(values);
    annotated.Retain(NotOverridden);
    annotated.Retain(NotFromDefault);
    r := annotated.Contents();
    ResolvedIsReportedFilter(values);
    FilterKeepsOnly(values, Reported);
    FilterIsSubsequence(values, Reported);
  }

  /** The two passes together are one filter by `Reported`. */
  lemma ResolvedIsReportedFilter<V>(values: seq<AnnotatedValue<V>>)
    ensures ResolvedConfigs(values) == Filter(values, Reported)
  {
    FilterFusion(values, NotOverridden, NotFromDefault, Reported);
  }

  /** No reported value is overridden, and none comes from the defaults layer. */
  lemma ResolvedAreReported<V>(values: seq<AnnotatedValue<V>>)
    ensures forall i :: 0 <= i < |ResolvedConfigs(values)| ==>
                          !ResolvedConfigs(values)[i].isOverridden && ResolvedConfigs(values)[i].source != Default
  {
    ResolvedIsReportedFilter(values);
    FilterKeepsOnly(values, Reported);
  }

  /**
   * A value is reported exactly when it was in the input, is not overridden and is not from
   * the defaults layer: nothing else is dropped.
   */
  lemma ResolvedMembers<V>(values: seq<AnnotatedValue<V>>, v: AnnotatedValue<V>)
    ensures v in ResolvedConfigs(values) <==> v in values && !v.isOverridden && v.source != Default
  {
    ResolvedIsReportedFilter(values);
    FilterMembers(values, Reported, v);
  }

  /** Each reported value is reported as many times as it occurs in the input. */
  lemma ResolvedCounts<V>(values: seq<AnnotatedValue<V>>)
    ensures forall v :: multiset(ResolvedConfigs(values))[v]
                        == if !v.isOverridden && v.source != Default then multiset(values)[v] else 0
  {
    ResolvedIsReportedFilter(values);
    FilterCounts(values, Reported);
  }

  /** The result keeps the input's order and is no longer than it. */
  lemma ResolvedIsSubsequence<V>(values: seq<AnnotatedValue<V>>)
    ensures Subsequence(ResolvedConfigs(values), values)
    ensures |ResolvedConfigs(values)| <= |values|
  {
    ResolvedIsReportedFilter(values);
    FilterIsSubsequence(values, Reported);
    SubsequenceLength(ResolvedConfigs(values), values);
  }

  /** Running the two passes in the other order gives the same list. */
  lemma RetainPassesCommute<V>(values: seq<AnnotatedValue<V>>)
    ensures Filter(Filter(values, NotFromDefault), NotOverridden) == ResolvedConfigs(values)
  {
    FilterCommutes(values, NotOverridden, NotFromDefault);
  }

  /** Filtering an already filtered list changes nothing. */
  lemma ResolvedIdempotent<V>(values: seq<AnnotatedValue<V>>)
    ensures ResolvedConfigs(ResolvedConfigs(values)) == ResolvedConfigs(values)
  {
    ResolvedIsReportedFilter(values);
    ResolvedIsReportedFilter(ResolvedConfigs(values));
    FilterIdempotent(values, Reported);
  }

  /**
   * On one list: a user setting that repeats the built-in value is still reported, and the
   * built-in value it overrides is not.
   */
  lemma UserValueEqualToDefaultIsReported()
    ensures ResolvedConfigs([
      AnnotatedValue(["ui", "pager"], "less", Default, true),
      AnnotatedValue(["ui", "pager"], "less", User, false)])
      == [AnnotatedValue(["ui", "pager"], "less", User, false)]
  {
  }

  /** The pair reported for one value: its rendered name and its value printed undecorated. */
  function ConfigPair<V>(v: AnnotatedValue<V>, nameText: ConfigName -> string,
                         valueText: (V, Decor) -> string): (string, string)
  {
    (nameText(v.name), valueText(v.value, NoDecor))
  }

  /**
   * `configs_to_tuple_list`: every value, in order, as its pair. `nameText` and `valueText`
   * stand for the library's rendering of a name and of a value under a decoration.
   */
  function ConfigsToTupleList<V>(configs: seq<AnnotatedValue<V>>, nameText: ConfigName -> string,
                                 valueText: (V, Decor) -> string): (r: seq<(string, string)>)
    ensures |r| == |configs|
    ensures forall i :: 0 <= i < |r| ==>
                          r[i].0 == nameText(configs[i].name) && r[i].1 == valueText(configs[i].value, NoDecor)
  {
    if configs == [] then []
    else [ConfigPair(configs[0], nameText, valueText)]
         + ConfigsToTupleList(configs[1..], nameText, valueText)
  }

  /** The list of pairs of a concatenation is the concatenation of the lists of pairs. */
  lemma {:induction false} TupleListAppend<V>(a: seq<AnnotatedValue<V>>, b: seq<AnnotatedValue<V>>,
                                              nameText: ConfigName -> string,
                                              valueText: (V, Decor) -> string)
    ensures ConfigsToTupleList(a + b, nameText, valueText)
            == ConfigsToTupleList(a, nameText, valueText) + ConfigsToTupleList(b, nameText, valueText)
  {
    if a != [] {
      assert (a + b)[1..] == a[1..] + b;
      TupleListAppend(a[1..], b, nameText, valueText);
    }
  }

  /**
   * The text of a pair depends on its value alone: two entries with equal values, at any
   * positions of any two lists, with any names, sources and flags, get the same text.
   */
  lemma PairTextDependsOnlyOnValue<V>(cs: seq<AnnotatedValue<V>>, i: nat, ds: seq<AnnotatedValue<V>>, j: nat,
                                      nameText: ConfigName -> string, valueText: (V, Decor) -> string)
    requires i < |cs| && j < |ds| && cs[i].value == ds[j].value
    ensures ConfigsToTupleList(cs, nameText, valueText)[i].1
            == ConfigsToTupleList(ds, nameText, valueText)[j].1
  {
  }
}
