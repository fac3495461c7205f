/** The closed table of wake models a farm can switch to
    (floris/simulation/farm.py, `Farm.set_wake_model` and `Farm.__str__`). */
module WakeModels {
  import opened Wrappers

  /** The four names `set_wake_model` accepts, in the order of its
      `valid_wake_models` list. */
  datatype WakeModelName = Curl | Gauss | Jensen | Floris

  /** Velocity-deficit model kinds a wake can hold. */
  datatype VelocityModel = CurlVelocity | GaussVelocity | JensenVelocity | FlorisVelocity

  /** Wake-deflection model kinds a wake can hold. */
  datatype DeflectionModel = CurlDeflection | GaussDeflection | Jimenez | FlorisDeflection

  /** The accepted identifiers, case-sensitive, in the source's order. */
  const ValidWakeModels: seq<string> := ["curl", "gauss", "jensen", "floris"]

  /** The identifier a caller passes to select `m`. */
  function Identifier(m: WakeModelName): string
  {
    match m
    case Curl => "curl"
    case Gauss => "gauss"
    case Jensen => "jensen"
    case Floris => "floris"
  }

  /** The membership test and the `if/elif` dispatch of `set_wake_model`:
      a name outside the table is rejected, every name in it is recognised
      as the model it spells. */
  function ParseWakeModel(s: string): (r: Option<WakeModelName>)
    ensures r.Some? <==> s in ValidWakeModels
    ensures r.Some? ==> Identifier(r.value) == s
  {
    if s == "curl" then Some(Curl)
    else if s == "gauss" then Some(Gauss)
    else if s == "jensen" then Some(Jensen)
    else if s == "floris" then Some(Floris)
    else None
  }

  /** Parsing the identifier of a model yields that model back. */
  lemma ParseIdentifier(m: WakeModelName)
    ensures ParseWakeModel(Identifier(m)) == Some(m)
  {
  }

  /** Every accepted name is the identifier of exactly one model. */
  lemma IdentifierInjective(m1: WakeModelName, m2: WakeModelName)
    requires Identifier(m1) == Identifier(m2)
    ensures m1 == m2
  {
  }

  /** The one deflection model that goes with each velocity model. */
  function DeflectionPairedWith(v: VelocityModel): DeflectionModel
  {
    match v
    case JensenVelocity => Jimenez
    case FlorisVelocity => FlorisDeflection
    case GaussVelocity => GaussDeflection
    case CurlVelocity => CurlDeflection
  }

  /** The (velocity, deflection) pair `set_wake_model` installs for `m`. */
  function PairFor(m: WakeModelName): (p: (VelocityModel, DeflectionModel))
    ensures p.1 == DeflectionPairedWith(p.0)
  {
    match m
    case Jensen => (JensenVelocity, Jimenez)
    case Floris => (FlorisVelocity, FlorisDeflection)
    case Gauss => (GaussVelocity, GaussDeflection)
    case Curl => (CurlVelocity, CurlDeflection)
  }

  /** The four documented pairs, one per accepted identifier. */
  lemma DocumentedPairs()
    ensures ParseWakeModel("jensen") == Some(Jensen) && PairFor(Jensen) == (JensenVelocity, Jimenez)
    ensures ParseWakeModel("floris") == Some(Floris) && PairFor(Floris) == (FlorisVelocity, FlorisDeflection)
    ensures ParseWakeModel("gauss") == Some(Gauss) && PairFor(Gauss) == (GaussVelocity, GaussDeflection)
    ensures ParseWakeModel("curl") == Some(Curl) && PairFor(Curl) == (CurlVelocity, CurlDeflection)
  {
  }

  /** Distinct names select distinct pairs, so the velocity model alone
      tells which name was chosen. */
  lemma PairForInjective(m1: WakeModelName, m2: WakeModelName)
    requires PairFor(m1).0 == PairFor(m2).0
    ensures m1 == m2
  {
  }

  /** Display name of a velocity model in the farm summary. */
  function VelocityName(v: VelocityModel): string
  {
    match v
    case CurlVelocity => "curl"
    case GaussVelocity => "gauss"
    case JensenVelocity => "jensen"
    case FlorisVelocity => "floris"
  }

  /** Display name of a deflection model in the farm summary. */
  function DeflectionName(d: DeflectionModel): string
  {
    match d
    case CurlDeflection => "curl"
    case GaussDeflection => "gauss_deflection"
    case Jimenez => "jimenez"
    case FlorisDeflection => "floris"
  }

  /** One `label: value` line of the farm summary. */
  function Line(heading: string, value: string): string
  {
    heading + value + "\n"
  }

  /** The three-line text of `Farm.__str__`. */
  function Summary(description: string, v: VelocityModel, d: DeflectionModel): string
  {
    Line("Description: ", description)
      + Line("Wake Model: ", VelocityName(v))
      + Line("Deflection Model: ", DeflectionName(d))
  }

  predicate NoNewline(s: string)
  {
    forall i :: 0 <= i < |s| ==> s[i] != '\n'
  }

  /** Model names are single-line words. */
  lemma NamesHaveNoNewline(v: VelocityModel, d: DeflectionModel)
    ensures NoNewline(VelocityName(v)) && NoNewline(DeflectionName(d))
  {
  }

  /** Texts that agree after a common prefix agree. */
  lemma DropCommonPrefix(p: string, s1: string, s2: string)
    requires p + s1 == p + s2
    ensures s1 == s2
  {
    assert s1 == (p + s1)[|p|..];
    assert s2 == (p + s2)[|p|..];
  }

  /** When two texts made of a line-free head and a tail starting with a
      line break agree, their heads agree and so do their tails. */
  lemma {:induction false} SplitAtNewline(a: string, x: string, b: string, y: string)
    requires NoNewline(a) && NoNewline(b)
    requires |x| > 0 && x[0] == '\n' && |y| > 0 && y[0] == '\n'
    requires a + x == b + y
    ensures a == b && x == y
  {
    assert a == (a + x)[..|a|] && b == (b + y)[..|b|];
    DropCommonPrefix(a, x, y);
  }

  /** Two texts that start with lines under the same heading, whose values
      are single-line, agree only if the values and the rests agree. */
  lemma {:induction false} SameLines(heading: string, a: string, r1: string, b: string, r2: string)
    requires NoNewline(a) && NoNewline(b)
    requires Line(heading, a) + r1 == Line(heading, b) + r2
    ensures a == b && r1 == r2
  {
    assert Line(heading, a) + r1 == heading + (a + ("\n" + r1));
    assert Line(heading, b) + r2 == heading + (b + ("\n" + r2));
    DropCommonPrefix(heading, a + ("\n" + r1), b + ("\n" + r2));
    SplitAtNewline(a, "\n" + r1, b, "\n" + r2);
    DropCommonPrefix("\n", r1, r2);
  }

  /** A three-line text under fixed headings and a fixed first line
      determines the values of its last two lines. */
  lemma {:induction false} LastTwoLinesDetermined(
    h0: string, first: string, h1: string, h2: string,
    a1: string, b1: string, a2: string, b2: string)
    requires NoNewline(a1) && NoNewline(b1) && NoNewline(a2) && NoNewline(b2)
    requires Line(h0, first) + Line(h1, a1) + Line(h2, b1) == Line(h0, first) + Line(h1, a2) + Line(h2, b2)
    ensures a1 == a2 && b1 == b2
  {
    var p := Line(h0, first);
    var w1, w2 := Line(h2, b1), Line(h2, b2);
    assert p + Line(h1, a1) + w1 == p + (Line(h1, a1) + w1);
    assert p + Line(h1, a2) + w2 == p + (Line(h1, a2) + w2);
    DropCommonPrefix(p, Line(h1, a1) + w1, Line(h1, a2) + w2);
    SameLines(h1, a1, w1, a2, w2);
    assert w1 + [] == w1 && w2 + [] == w2;
    SameLines(h2, b1, [], b2, []);
  }

  /** The summary names the current models faithfully: two farms with the
      same description whose summaries agree hold the same velocity and the
      same deflection model. */
  lemma {:induction false} SummaryIdentifiesModels(
    description: string,
    v1: VelocityModel, d1: DeflectionModel,
    v2: VelocityModel, d2: DeflectionModel)
    requires Summary(description, v1, d1) == Summary(description, v2, d2)
    ensures v1 == v2 && d1 == d2
  {
    NamesHaveNoNewline(v1, d1);
    NamesHaveNoNewline(v2, d2);
    LastTwoLinesDetermined("Description: ", description, "Wake Model: ", "Deflection Model: ",
      VelocityName(v1), DeflectionName(d1), VelocityName(v2), DeflectionName(d2));
    NamesInjective(v1, d1, v2, d2);
  }

  /** Distinct models have distinct display names. */
  lemma NamesInjective(v1: VelocityModel, d1: DeflectionModel, v2: VelocityModel, d2: DeflectionModel)
    requires VelocityName(v1) == VelocityName(v2) && DeflectionName(d1) == DeflectionName(d2)
    ensures v1 == v2 && d1 == d2
  {
  }
}
