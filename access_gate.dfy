/**
  The access gate on `keystone.adminMeta`: the `isAccessAllowed` predicate
  chosen once from the configuration, and the resolver that returns the
  static admin-meta tree only to requests it lets through.
*/
module AccessGate {
  import opened Wrappers
  import opened AdminMetaTypes

  /** The predicate used when a session strategy is configured but no
      `ui.isAccessAllowed` is: a request is let in when it has a session. */
  predicate HasSession<S>(ctx: Context<S>) {
    ctx.Live? && ctx.session.Some?
  }

  /**
    The access predicate in force: none without a session strategy; with
    one, the configured `ui.isAccessAllowed`, or else `HasSession`.
  */
  function IsAccessAllowed<S(!new), I>(config: KeystoneConfig<S, I>): (r: Option<Context<S> -> bool>)
    ensures r.None? <==> !config.sessionConfigured
    ensures config.sessionConfigured && config.isAccessAllowed.Some? ==> r == config.isAccessAllowed
    ensures config.sessionConfigured && config.isAccessAllowed.None? ==>
      r.Some? && forall ctx :: r.value(ctx) == HasSession(ctx)
  {
    if !config.sessionConfigured then None
    else if config.isAccessAllowed.Some? then config.isAccessAllowed
    else Some(ctx => HasSession(ctx))
  }

  /**
    The `adminMeta` resolver.  The build process and a system without an
    access predicate always get the root; otherwise the predicate is asked,
    and the root is returned when it answers yes and "Access denied" thrown
    when it answers no.
  */
  function AdminMeta<S>(isAccessAllowed: Option<Context<S> -> bool>, root: AdminMetaRoot, ctx: Context<S>)
    : (r: Result<AdminMetaRoot, Error>)
    ensures ctx.AdminUIBuildProcess? || isAccessAllowed.None? ==> r == Ok(root)
    ensures ctx.Live? && isAccessAllowed.Some? ==> (r.Ok? <==> isAccessAllowed.value(ctx))
    ensures r.Ok? ==> r.value == root
    ensures r.Err? ==> r.error == AccessDenied(ACCESS_DENIED_MESSAGE)
  {
    if ctx.AdminUIBuildProcess? || isAccessAllowed.None? then Ok(root)
    else if isAccessAllowed.value(ctx) then Ok(root)
    else Err(AccessDenied(ACCESS_DENIED_MESSAGE))
  }

  /**
    With a session strategy and no `ui.isAccessAllowed`, a live request sees
    the admin meta exactly when it carries a session; without a session
    strategy every request sees it.
  */
  lemma DefaultGate<S(!new), I>(config: KeystoneConfig<S, I>, root: AdminMetaRoot, session: Option<S>)
    requires config.isAccessAllowed.None?
    ensures config.sessionConfigured ==>
      (AdminMeta(IsAccessAllowed(config), root, Live(session)).Ok? <==> session.Some?)
    ensures !config.sessionConfigured ==> AdminMeta(IsAccessAllowed(config), root, Live(session)) == Ok(root)
  {
  }
}
