/**
 * `UICollectionViewCompositionalLayout.LayoutBuilder`, the result builder that yields an
 * optional layout section, and the two class functions that turn a section provider
 * into a layout.
 */
module Layout {
  import opened Wrappers

  /** An `NSCollectionLayoutSection`, by identity. */
  datatype Section = Section(id: nat)

  /** An `NSCollectionLayoutEnvironment`, by identity. */
  datatype Environment = Environment(id: nat)

  /** A section provider as UIKit calls it: with the section index and the layout environment. */
  type SectionProvider = (int, Environment) -> Option<Section>

  /** A builder component: its static type is a section or an optional section. */
  datatype LayoutExpr =
    | Present(section: Section)            // an expression of type NSCollectionLayoutSection
    | Maybe(maybe: Option<Section>)        // an expression of type NSCollectionLayoutSection?
    | Optional(body: Option<LayoutExpr>)   // `if c { ... }` without else; None when not taken
    | EitherFirst(first: LayoutExpr)       // the taken `if` branch of an if/else
    | EitherSecond(second: LayoutExpr)     // the taken `else` branch

  /** `buildBlock` / `buildExpression` / `buildEither` on a section: the section, now optional. */
  function BuildSection(section: Section): (r: Option<Section>)
    ensures r.Some? && r.value == section
  {
    Some(section)
  }

  /** `buildBlock` / `buildExpression` / `buildOptional` / `buildEither` on an optional section. */
  function BuildMaybe(section: Option<Section>): (r: Option<Section>)
    ensures r.Some? <==> section.Some?
    ensures r.Some? ==> r.value == section.value
  {
    section
  }

  /** The sections written anywhere in a builder component. */
  function Written(e: LayoutExpr): set<Section>
  {
    match e
    case Present(s) => {s}
    case Maybe(None) => {}
    case Maybe(Some(s)) => {s}
    case Optional(None) => {}
    case Optional(Some(b)) => Written(b)
    case EitherFirst(b) => Written(b)
    case EitherSecond(b) => Written(b)
  }

  /** What a builder closure returns; it never makes up a section that was not written. */
  function Build(e: LayoutExpr): (r: Option<Section>)
    ensures r.Some? ==> r.value in Written(e)
  {
    match e
    case Present(s) => BuildSection(s)
    case Maybe(m) => BuildMaybe(m)
    case Optional(None) => BuildMaybe(None)
    case Optional(Some(b)) => BuildMaybe(Build(b))
    case EitherFirst(b) => BuildMaybe(Build(b))
    case EitherSecond(b) => BuildMaybe(Build(b))
  }

  /** A branch the control flow took: an `if` without else, or either side of an if/else. */
  datatype Branch = IfTaken | FirstTaken | SecondTaken

  /** `core` written inside the taken branches `ws`, outermost first. */
  function Wrap(ws: seq<Branch>, core: LayoutExpr): LayoutExpr
  {
    if ws == [] then core
    else
      var inner := Wrap(ws[1..], core);
      match ws[0]
      case IfTaken => Optional(Some(inner))
      case FirstTaken => EitherFirst(inner)
      case SecondTaken => EitherSecond(inner)
  }

  /** Taken branches are transparent: the builder yields what their innermost component yields. */
  lemma {:induction false} BuildThroughBranches(ws: seq<Branch>, core: LayoutExpr)
    ensures Build(Wrap(ws, core)) == Build(core)
  {
    if ws != [] {
      BuildThroughBranches(ws[1..], core);
    }
  }

  /** A section written inside any nest of taken branches is never dropped. */
  lemma SectionNeverDropped(ws: seq<Branch>, s: Section)
    ensures Build(Wrap(ws, Present(s))) == Some(s)
  {
    BuildThroughBranches(ws, Present(s));
  }

  /** An optional section inside any nest of taken branches comes out exactly as it went in. */
  lemma OptionalSectionKept(ws: seq<Branch>, m: Option<Section>)
    ensures Build(Wrap(ws, Maybe(m))) == m
  {
    BuildThroughBranches(ws, Maybe(m));
  }

  /** An `if` that was not taken, inside any nest of taken branches, yields no section. */
  lemma UntakenIfYieldsNothing(ws: seq<Branch>)
    ensures Build(Wrap(ws, Optional(None))) == None
  {
    BuildThroughBranches(ws, Optional(None));
  }

  /** `indexBuilder`: the layout asks the provider with the index alone; the environment plays no part. */
  function IndexBuilder(provider: int -> Option<Section>): (layout: SectionProvider)
    ensures forall index: int, env: Environment :: layout(index, env) == provider(index)
  {
    (index: int, env: Environment) => provider(index)
  }

  /** `indexEnvironmentBuilder`: the layout passes both index and environment through unchanged. */
  function IndexEnvironmentBuilder(provider: SectionProvider): (layout: SectionProvider)
    ensures forall index: int, env: Environment :: layout(index, env) == provider(index, env)
  {
    (index: int, env: Environment) => provider(index, env)
  }

  /** Two environments never make `indexBuilder`'s layout answer differently. */
  lemma IndexBuilderIgnoresEnvironment(provider: int -> Option<Section>, index: int, a: Environment, b: Environment)
    ensures IndexBuilder(provider)(index, a) == IndexBuilder(provider)(index, b)
  {
  }
}
