/** The route guard (src/components/AuthGuard.tsx): what a protected route shows. */
module AuthGuard {
  import opened JsValues
  import opened Types

  /** The spinner placeholder, a `<Navigate>` redirect, or the protected child routes. */
  datatype GuardView = Placeholder | Redirect(to: string, replace: bool) | RenderOutlet

  /** `AuthGuard()` given the auth context's `isLoading` and `user`. */
  function Decide(isLoading: bool, user: Option<User>): (view: GuardView)
    ensures view.Placeholder? <==> isLoading
    ensures view.Redirect? <==> !isLoading && user.None?
    ensures view.RenderOutlet? <==> !isLoading && user.Some?
    ensures view.Redirect? ==> view.to == "/auth" && view.replace
  {
    if isLoading then Placeholder
    else if user.None? then Redirect("/auth", true)
    else RenderOutlet
  }
}
