/** The sharing rule both the backend controller and the client-side
    service apply when sharing is toggled: a shared album keeps its token
    or gets a new one, a private album carries none. */
module Sharing {
  import opened Common

  /** A shared album carries a token that is not empty, and a private one
      carries none. */
  predicate Consistent(isPublic: bool, token: Option<string>) {
    (isPublic <==> Truthy(token)) && (!isPublic ==> token.None?)
  }

  /** The token stored once sharing is set to `isPublic`: a shared album
      keeps the token it has, or gets `newToken` when it has none; a
      private one loses it. */
  function NextShareToken(isPublic: bool, current: Option<string>, newToken: string): (t: Option<string>)
    requires newToken != ""
    ensures Consistent(isPublic, t)
    ensures t.Some? <==> isPublic
    ensures isPublic && Truthy(current) ==> t == current
    ensures isPublic && !Truthy(current) ==> t == Some(newToken)
  {
    if !isPublic then None else if Truthy(current) then current else Some(newToken)
  }

  /** Turning sharing off and on again issues the second new token: the
      old link is revoked. */
  lemma ReshareIssuesNewToken(current: Option<string>, first: string, second: string)
    requires first != "" && second != ""
    ensures NextShareToken(true, NextShareToken(false, current, first), second) == Some(second)
  {
  }

  /** Sharing an album that still holds a token reuses that token. */
  lemma ToggleKeepsExistingToken(token: string, newToken: string)
    requires token != "" && newToken != ""
    ensures NextShareToken(true, Some(token), newToken) == Some(token)
  {
  }
}
