/** The callbacks and browser actions a page can trigger, as values. A handler that calls
    `onViewChange(v)`, `onLogout()`, `onToggleLang()`, `onLogin(user)` or `window.open(url)`
    returns the corresponding effect; `App.AppState.Dispatch` applies it. */
module Effects {
  import opened Types

  datatype Effect =
    | NoEffect
    | ChangeView(view: AppView)
    | OpenUrl(url: string)
    | Logout
    | ToggleLanguage
    | SignIn(user: User)
}
