/** What a route guard of `src/components/auth` renders, with the markup
    left out. */
module Views {
  import opened Wrappers

  datatype View =
    | Spinner                                  // the loading indicator
    | Redirect(to: string, from: Option<string>) // `<Navigate to={to} state={{ from }} replace />`
    | AccessDenied                             // the "Access Denied" panel
    | InsufficientPermissions                  // the "Insufficient Permissions" panel
    | Children                                 // the guarded content
    | Fallback                                 // the guard's `fallback` prop
    | Crashed(message: string)                 // the render throws an error with this message
}
