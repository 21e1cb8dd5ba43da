/** The client-side paths the screens navigate to. Every contributor-facing
    path carries the contributor's access token as its last segment. */
module Routes {

  datatype Path =
    | Home                    // "/"
    | Character(token: string) // the entry link handed to contributors
    | Review(token: string)    // algorithm review step
    | Contribute(token: string) // allocation preferences step
    | Interview(token: string)  // interview chat step

  /** The URL path of `p`, as the screens build it with template strings. */
  function Url(p: Path): (u: string)
    ensures |u| > 0 && u[0] == '/'
    ensures p.Home? <==> u == "/"
  {
    match p
    case Home => "/"
    case Character(t) => "/character/" + t
    case Review(t) => "/review/" + t
    case Contribute(t) => "/contribute/" + t
    case Interview(t) => "/interview/" + t
  }

  /** A navigation request: the target and whether it replaces the current
      history entry (`navigate(path, { replace: true })`). */
  datatype Navigation = Navigation(to: Path, replace: bool)

  /** The errors the review and preferences steps show for a missing token
      and for a token that matches no contributor. */
  const InvalidLinkError := "Invalid access link"
  const ExpiredLinkError := "Invalid or expired access link"
}
