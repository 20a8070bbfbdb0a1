/** The Prometheus text-exposition formatter of the exporter: metric names
    namespaced under `eyem4`, label sets rendered as `{k="v" ...}`, and the
    two-line fragment (`# TYPE` comment and sample) of one metric.

    The name sanitiser is the external `slug` library; its behaviour is not
    part of this model, so every operation that needs it takes it as the
    parameter `slug`. */
module Exposition {
  import opened Text

  datatype Option<T> = None | Some(value: T)

  /** The namespace every exported metric name is put under. */
  const Namespace: string := "eyem4"

  /** One label of a sample line, in the order the caller supplies it. */
  datatype Label = Label(name: string, value: string)

  /** `formatMetricName`: the namespace, an underscore, then the slug of
      `name` with `_` as its separator. */
  function FormatMetricName(slug: string -> string, name: string): (r: string)
    ensures |r| == |Namespace| + 1 + |slug(name)|
    ensures r[..|Namespace| + 1] == "eyem4_"
    ensures r[|Namespace| + 1..] == slug(name)
  {
    Namespace + "_" + slug(name)
  }

  /** Namespacing merges no two names: two metric names are equal exactly
      when their slugs are. */
  lemma MetricNameInjective(slug: string -> string, a: string, b: string)
    ensures FormatMetricName(slug, a) == FormatMetricName(slug, b) <==> slug(a) == slug(b)
  {
    if FormatMetricName(slug, a) == FormatMetricName(slug, b) {
      assert slug(a) == FormatMetricName(slug, a)[|Namespace| + 1..];
    }
  }

  /** One `name="value"` entry. */
  function RenderLabel(l: Label): string
  {
    l.name + "=\"" + l.value + "\""
  }

  function RenderLabels(labels: seq<Label>): seq<string>
  {
    seq(|labels|, i requires 0 <= i < |labels| => RenderLabel(labels[i]))
  }

  /** `formatMetricLabels`: the entries in the order given, separated by
      single spaces, inside braces. */
  function FormatLabels(labels: seq<Label>): (r: string)
    ensures |r| >= 2 && r[0] == '{' && r[|r| - 1] == '}'
    ensures r == "{}" <==> labels == []
  {
    "{" + Join(RenderLabels(labels), ' ') + "}"
  }

  /** Adding one label to the mapping: on its own it is rendered as
      `{key="value"}`; after other labels it goes after theirs, past a
      single space, before the closing brace. So, for every mapping, the
      entries appear in insertion order, each as `key="value"`. */
  lemma FormatLabelsSnoc(labels: seq<Label>, l: Label)
    ensures labels == [] ==> FormatLabels(labels + [l]) == "{" + RenderLabel(l) + "}"
    ensures labels != [] ==>
      var before := FormatLabels(labels);
      FormatLabels(labels + [l]) == before[..|before| - 1] + " " + RenderLabel(l) + "}"
  {
    var parts := RenderLabels(labels);
    var r := RenderLabel(l);
    assert RenderLabels(labels + [l]) == parts + [r];
    if labels == [] {
      assert parts + [r] == [r];
    } else {
      var j := Join(parts, ' ');
      JoinSnoc(parts, r, ' ');
      var before := FormatLabels(labels);
      assert before[..|before| - 1] == "{" + j;
      AppendAssociates("{", j + " ", r);
      AppendAssociates("{", j, " ");
    }
  }

  /** Index of the first `c` in `s`. */
  function FirstIndex(s: string, c: char): (k: nat)
    requires c in s
    ensures k < |s| && s[k] == c && c !in s[..k]
  {
    if s[0] == c then 0
    else
      var k' := FirstIndex(s[1..], c);
      assert s[..k' + 1] == [s[0]] + s[1..][..k'];
      k' + 1
  }

  /** Reads one `name="value"` entry back: the name runs up to the first
      `=`, and the rest must be a quoted value. */
  function ParseLabel(entry: string): Option<Label>
  {
    if '=' !in entry then None
    else
      var k := FirstIndex(entry, '=');
      var quoted := entry[k + 1..];
      if |quoted| >= 2 && quoted[0] == '"' && quoted[|quoted| - 1] == '"'
      then Some(Label(entry[..k], quoted[1..|quoted| - 1]))
      else None
  }

  function ParseLabelList(entries: seq<string>): Option<seq<Label>>
  {
    if entries == [] then Some([])
    else match (ParseLabel(entries[0]), ParseLabelList(entries[1..]))
      case (Some(l), Some(ls)) => Some([l] + ls)
      case _ => None
  }

  /** Reads a rendered label set back into its labels. */
  function ParseLabels(s: string): Option<seq<Label>>
  {
    if |s| < 2 || s[0] != '{' || s[|s| - 1] != '}' then None
    else if s == "{}" then Some([])
    else ParseLabelList(Split(s[1..|s| - 1], ' '))
  }

  /** A label the text form can carry unambiguously: no space anywhere and
      no `=` in its name. */
  predicate PlainLabel(l: Label)
  {
    ' ' !in l.name && '=' !in l.name && ' ' !in l.value
  }

  lemma ParseRenderedLabel(l: Label)
    requires '=' !in l.name
    ensures ParseLabel(RenderLabel(l)) == Some(l)
  {
    var e := RenderLabel(l);
    var n := |l.name|;
    assert e[..n] == l.name && e[n] == '=';
    assert FirstIndex(e, '=') == n;
    assert e[n + 1..] == "\"" + l.value + "\"";
  }

  lemma {:induction false} ParseRenderedLabels(labels: seq<Label>)
    requires forall i :: 0 <= i < |labels| ==> '=' !in labels[i].name
    ensures ParseLabelList(RenderLabels(labels)) == Some(labels)
  {
    if labels != [] {
      ParseRenderedLabel(labels[0]);
      ParseRenderedLabels(labels[1..]);
      assert RenderLabels(labels)[1..] == RenderLabels(labels[1..]);
      assert [labels[0]] + labels[1..] == labels;
    }
  }

  /** The rendered label set reads back as the same labels in the same
      order, so rendering keeps the caller's insertion order and loses no
      entry. */
  lemma LabelsRoundTrip(labels: seq<Label>)
    requires forall i :: 0 <= i < |labels| ==> PlainLabel(labels[i])
    ensures ParseLabels(FormatLabels(labels)) == Some(labels)
  {
    if labels != [] {
      var s := FormatLabels(labels);
      var parts := RenderLabels(labels);
      assert s[1..|s| - 1] == Join(parts, ' ');
      forall i | 0 <= i < |parts|
        ensures ' ' !in parts[i]
      {
        assert parts[i] == labels[i].name + "=\"" + labels[i].value + "\"";
      }
      JoinSplitRoundTrip(parts, ' ');
      ParseRenderedLabels(labels);
    }
  }

  /** `formatMetric`: a `# TYPE` line and a sample line, joined by one
      newline (a two-element `join`); `value` is the text the source
      interpolates. */
  function FormatMetric(slug: string -> string, name: string, kind: string, labels: seq<Label>, value: string): string
  {
    var n := FormatMetricName(slug, name);
    "# TYPE " + n + " " + kind + "\n" + n + FormatLabels(labels) + " " + value
  }

  /** When none of its inputs holds a newline, a fragment is exactly two
      lines: `# TYPE <name> <kind>`, then the same name, the labels, a
      space and the value. */
  lemma FormatMetricLines(slug: string -> string, name: string, kind: string, labels: seq<Label>, value: string)
    requires '\n' !in slug(name) && '\n' !in kind && '\n' !in value
    requires forall i :: 0 <= i < |labels| ==> '\n' !in labels[i].name && '\n' !in labels[i].value
    ensures var n := FormatMetricName(slug, name);
      Split(FormatMetric(slug, name, kind, labels, value), '\n')
        == ["# TYPE " + n + " " + kind, n + FormatLabels(labels) + " " + value]
  {
    var n := FormatMetricName(slug, name);
    var parts := RenderLabels(labels);
    forall i | 0 <= i < |parts|
      ensures '\n' !in parts[i]
    {
      assert parts[i] == labels[i].name + "=\"" + labels[i].value + "\"";
    }
    JoinAvoids(parts, ' ', '\n');
    assert '\n' !in FormatLabels(labels) by {
      assert FormatLabels(labels) == "{" + Join(parts, ' ') + "}";
    }
    assert '\n' !in n by {
      assert n == Namespace + "_" + slug(name);
    }
    var first := "# TYPE " + n + " " + kind;
    var second := n + FormatLabels(labels) + " " + value;
    assert '\n' !in first && '\n' !in second;
    assert FormatMetric(slug, name, kind, labels, value) == first + "\n" + second;
    SplitAtSeparator(first, second, '\n');
    SplitWithoutSeparator(first, '\n');
    SplitWithoutSeparator(second, '\n');
  }
}
