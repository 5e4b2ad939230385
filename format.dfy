/**
 * Templates with named placeholders, as `str.format` is used by the
 * generator: a template is a list of literal text and `{name}` holes, and
 * filling it replaces every hole by the value the caller passes for that name.
 */
module Format {
  import opened Strings

  /** The placeholder names that occur in the templates. */
  datatype Field =
    | Competitor | CompetitorPrice | Price | Url | Hashtags
    | Problem | ProductName | Solution
    | Target | Complaint | ValueProp
    | ProductLower | Action
    | WeekNum | HoldexStat | IgnitionStat | ForecastStat | BurnStat

  function FieldName(f: Field): string {
    match f
    case Competitor => "competitor"
    case CompetitorPrice => "competitor_price"
    case Price => "price"
    case Url => "url"
    case Hashtags => "hashtags"
    case Problem => "problem"
    case ProductName => "product_name"
    case Solution => "solution"
    case Target => "target"
    case Complaint => "complaint"
    case ValueProp => "value_prop"
    case ProductLower => "product_lower"
    case Action => "action"
    case WeekNum => "week_num"
    case HoldexStat => "holdex_stat"
    case IgnitionStat => "ignition_stat"
    case ForecastStat => "forecast_stat"
    case BurnStat => "burn_stat"
  }

  datatype Segment = Lit(text: string) | Hole(field: Field)

  type Template = seq<Segment>

  /** Every placeholder of the template has a value in `env`. */
  predicate Fits(t: Template, env: map<Field, string>) {
    forall k :: 0 <= k < |t| && t[k].Hole? ==> t[k].field in env
  }

  /** Every placeholder of the template is one of `fs`. */
  predicate HolesWithin(t: Template, fs: set<Field>) {
    forall k :: 0 <= k < |t| && t[k].Hole? ==> t[k].field in fs
  }

  /** The template has a `{name}` placeholder for `f`. */
  predicate HasHole(t: Template, f: Field) {
    exists k :: 0 <= k < |t| && t[k] == Hole(f)
  }

  /** A segment as written in the source: a hole shows as `{name}`. */
  function RawSegment(s: Segment): string {
    match s
    case Lit(text) => text
    case Hole(f) => "{" + FieldName(f) + "}"
  }

  /** The template has no placeholder at all. */
  predicate AllLiteral(t: Template) {
    forall k :: 0 <= k < |t| ==> t[k].Lit?
  }

  /** The template as written in the source. */
  function Raw(t: Template): string {
    if t == [] then "" else RawSegment(t[0]) + Raw(t[1..])
  }

  /** One segment with its hole replaced by the caller's value. */
  function Render(s: Segment, env: map<Field, string>): string
    requires s.Hole? ==> s.field in env
  {
    match s
    case Lit(text) => text
    case Hole(f) => env[f]
  }

  /** `template.format(**env)`; every placeholder must have a value, as Python demands. */
  function Fill(t: Template, env: map<Field, string>): string
    requires Fits(t, env)
  {
    if t == [] then ""
    else
      assert forall k :: 0 <= k < |t[1..]| ==> t[1..][k] == t[k + 1];
      Render(t[0], env) + Fill(t[1..], env)
  }

  lemma {:induction false} FillAppend(t1: Template, t2: Template, env: map<Field, string>)
    requires Fits(t1 + t2, env)
    ensures Fits(t1, env) && Fits(t2, env)
    ensures Fill(t1 + t2, env) == Fill(t1, env) + Fill(t2, env)
  {
    if t1 == [] {
      assert t1 + t2 == t2;
    } else {
      assert (t1 + t2)[0] == t1[0];
      assert (t1 + t2)[1..] == t1[1..] + t2;
      assert forall k :: 0 <= k < |t2| ==> t2[k] == (t1 + t2)[|t1| + k];
      FillAppend(t1[1..], t2, env);
    }
  }

  /** Each segment, rendered, appears in the filled template. */
  lemma FillContainsSegment(t: Template, env: map<Field, string>, k: nat)
    requires Fits(t, env)
    requires k < |t|
    ensures t[k].Hole? ==> t[k].field in env
    ensures Contains(Fill(t, env), Render(t[k], env))
  {
    FillContainsRun(t, env, k, k + 1);
    var one := t[k..k + 1];
    assert one[0] == t[k] && one[1..] == [];
    assert Fill(one, env) == Render(t[k], env) + Fill(one[1..], env);
    assert Fill(one, env) == Render(t[k], env);
  }

  /** Consecutive segments, rendered together, appear in the filled template. */
  lemma FillContainsRun(t: Template, env: map<Field, string>, i: nat, j: nat)
    requires Fits(t, env)
    requires i <= j <= |t|
    ensures Fits(t[i..j], env)
    ensures Contains(Fill(t, env), Fill(t[i..j], env))
  {
    assert t == t[..i] + t[i..j] + t[j..];
    FillAppend(t[..i] + t[i..j], t[j..], env);
    FillAppend(t[..i], t[i..j], env);
    ContainsSelf(Fill(t[i..j], env));
    ContainsWithin(Fill(t[..i], env), Fill(t[i..j], env), Fill(t[j..], env), Fill(t[i..j], env));
  }

  /** A literal, a placeholder and a literal in a row render as the two texts around the value. */
  lemma FillContainsLitHoleLit(t: Template, env: map<Field, string>, k: nat)
    requires Fits(t, env)
    requires k + 3 <= |t|
    requires t[k].Lit? && t[k + 1].Hole? && t[k + 2].Lit?
    ensures t[k + 1].field in env
    ensures Contains(Fill(t, env), t[k].text + env[t[k + 1].field] + t[k + 2].text)
  {
    FillContainsRun(t, env, k, k + 3);
    var run := t[k..k + 3];
    var last := run[2..];
    assert last[0] == t[k + 2] && last[1..] == [];
    assert Fill(last, env) == t[k + 2].text;
    var mid := run[1..];
    assert mid[0] == t[k + 1] && mid[1..] == last;
    assert Fill(mid, env) == env[t[k + 1].field] + t[k + 2].text;
    assert run[0] == t[k];
    assert Fill(run, env) == t[k].text + (env[t[k + 1].field] + t[k + 2].text);
    assert t[k].text + env[t[k + 1].field] + t[k + 2].text == Fill(run, env);
  }

  /** A value passed for a placeholder the template uses appears in the output. */
  lemma FillContainsValue(t: Template, env: map<Field, string>, f: Field)
    requires Fits(t, env)
    requires HasHole(t, f)
    ensures f in env
    ensures Contains(Fill(t, env), env[f])
  {
    var k :| 0 <= k < |t| && t[k] == Hole(f);
    FillContainsSegment(t, env, k);
  }

  lemma {:induction false} RawAppend(t1: Template, t2: Template)
    ensures Raw(t1 + t2) == Raw(t1) + Raw(t2)
  {
    if t1 != [] {
      assert (t1 + t2)[0] == t1[0];
      assert (t1 + t2)[1..] == t1[1..] + t2;
      RawAppend(t1[1..], t2);
    } else {
      assert t1 + t2 == t2;
    }
  }

  /** A placeholder shows in the template's source text as `{name}`. */
  lemma {:induction false} RawShowsHole(t: Template, f: Field)
    requires HasHole(t, f)
    ensures Contains(Raw(t), "{" + FieldName(f) + "}")
  {
    var mark := "{" + FieldName(f) + "}";
    if t[0] == Hole(f) {
      assert Raw(t) == mark + Raw(t[1..]);
      ContainsPrefix(Raw(t), |mark|);
      assert Raw(t)[..|mark|] == mark;
    } else {
      var k :| 0 <= k < |t| && t[k] == Hole(f);
      assert t[1..][k - 1] == Hole(f);
      RawShowsHole(t[1..], f);
      ContainsWithin(RawSegment(t[0]), Raw(t[1..]), [], mark);
      assert RawSegment(t[0]) + Raw(t[1..]) + [] == Raw(t);
    }
  }

  /** A template without placeholders fills to its source text. */
  lemma {:induction false} FillWithoutHoles(t: Template, env: map<Field, string>)
    requires AllLiteral(t)
    ensures Fits(t, env)
    ensures Fill(t, env) == Raw(t)
  {
    if t != [] {
      assert forall k :: 0 <= k < |t[1..]| ==> t[1..][k] == t[k + 1];
      FillWithoutHoles(t[1..], env);
    }
  }
}
