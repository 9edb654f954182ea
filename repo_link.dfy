/**
 * The star-display decision and link building of
 * src/components/GitHubRepoLink.tsx. Rendering (JSX, icons, class names)
 * is not modelled; the component is reduced to the link it points at and
 * where the count it shows comes from.
 */
module RepoLink {
  import opened Wrappers

  const DefaultUsername: string := "noahgorstein"
  const GithubWeb: string := "https://github.com/"

  /** The component's props; `className` only affects styling and is omitted. */
  datatype Props = Props(repo: string, stars: Option<int>, username: Option<string>)

  /** Where the displayed count comes from. */
  datatype StarSource = Supplied(count: int) | Lookup(key: string)

  /** JavaScript truthiness of `stars`: `undefined` and `0` are falsy. */
  predicate Truthy(stars: Option<int>)
  {
    stars.Some? && stars.value != 0
  }

  /** The destructuring default of `username`. */
  function Username(props: Props): (name: string)
    ensures props.username.None? ==> name == DefaultUsername
    ensures props.username.Some? ==> name == props.username.value
  {
    props.username.GetOr(DefaultUsername)
  }

  /** The key handed to the star lookup: "owner/repo". */
  function RepoKey(props: Props): string
  {
    Username(props) + "/" + props.repo
  }

  /** The link target. */
  function Href(props: Props): string
  {
    GithubWeb + Username(props) + "/" + props.repo
  }

  /** The link and the lookup name the same repository: the link is the web root followed by the key. */
  lemma HrefNamesLookupKey(props: Props)
    ensures Href(props)[..|GithubWeb|] == GithubWeb
    ensures Href(props)[|GithubWeb|..] == RepoKey(props)
  {
  }

  /** The `if (!stars)` decision: a truthy count is shown as given, anything else is looked up. */
  function Source(props: Props): (source: StarSource)
    ensures source.Supplied? <==> Truthy(props.stars)
    ensures source.Supplied? ==> props.stars == Some(source.count) && source.count != 0
    ensures source.Lookup? ==> source.key == RepoKey(props)
  {
    if !Truthy(props.stars) then Lookup(RepoKey(props)) else Supplied(props.stars.value)
  }

  /**
   * The value the component renders, given what the star hook currently
   * holds for the lookup (`None` until its request settles).
   */
  function DisplayedStars(props: Props, hooked: Option<int>): (shown: Option<int>)
    ensures Truthy(props.stars) ==> shown == props.stars
    ensures !Truthy(props.stars) ==> shown == hooked
  {
    match Source(props)
    case Supplied(n) => Some(n)
    case Lookup(_) => hooked
  }
}
