// The Express app (server.js): the routers mounted under /api, and where a request lands.
module ApiServer {
  import opened Common
  import opened Text
  import ChatbotRoutes

  /** The routers server.js mounts below `/api`. */
  datatype Router = AuthRouter | ChatbotsRouter | UsersRouter | DocumentsRouter | ConversationsRouter

  /** The mounts in registration order: the prefix below `/api` and its router. */
  const MOUNTS: seq<(string, Router)> := [
    ("auth", AuthRouter),
    ("chatbots", ChatbotsRouter),
    ("users", UsersRouter),
    ("documents", DocumentsRouter),
    ("conversations", ConversationsRouter)
  ]

  /** The first mount from position k whose prefix is `segment`. */
  function MountFrom(segment: string, k: nat): (r: Option<Router>)
    requires k <= |MOUNTS|
    decreases |MOUNTS| - k
    ensures r.Some? <==> exists j :: k <= j < |MOUNTS| && MOUNTS[j].0 == segment
    ensures r.Some? ==> exists j :: k <= j < |MOUNTS| && MOUNTS[j] == (segment, r.value)
  {
    if k == |MOUNTS| then None
    else if MOUNTS[k].0 == segment then Some(MOUNTS[k].1)
    else MountFrom(segment, k + 1)
  }

  /**
   * Where a request path lands: the static `/uploads` directory with the file's path, the
   * root greeting `app.get('/')` (which answers GET only), a mounted router with the rest of
   * the path, or Express's 404. A missing static file falls through to the 404; the file
   * system is not modelled.
   */
  datatype Landing = NotFound | Uploads(file: seq<string>) | RootGreeting | AtRouter(router: Router, rest: seq<string>)

  function Land(path: seq<string>): (l: Landing)
    ensures l.Uploads? <==> |path| >= 1 && path[0] == "uploads"
    ensures l.Uploads? ==> l.file == path[1..]
    ensures l.RootGreeting? <==> path == []
    ensures l.AtRouter? ==> |path| >= 2 && path[0] == "api" && l.rest == path[2..]
    ensures l.AtRouter? ==> exists j :: 0 <= j < |MOUNTS| && MOUNTS[j] == (path[1], l.router)
    ensures l.AtRouter? <==>
              |path| >= 2 && path[0] == "api" && exists j :: 0 <= j < |MOUNTS| && MOUNTS[j].0 == path[1]
  {
    if |path| >= 1 && path[0] == "uploads" then Uploads(path[1..])
    else if path == [] then RootGreeting
    else if |path| >= 2 && path[0] == "api" then
      match MountFrom(path[1], 0)
      case Some(r) => AtRouter(r, path[2..])
      case None => NotFound
    else NotFound
  }

  /**
   * The platform logo router is never mounted, so the logo requests the frontend makes
   * to `/api/platform/logo` all end in Express's 404.
   */
  lemma PlatformLogoIsUnreachable()
    ensures Land(["api", "platform", "logo"]) == NotFound
  {
    forall j | 0 <= j < |MOUNTS| ensures MOUNTS[j].0 != "platform" {
      assert |MOUNTS[j].0| != |"platform"| || MOUNTS[j].0[0] != 'p';
    }
  }

  /**
   * `DELETE /api/chatbots/:id` reaches the chatbot router with the id, and no route there
   * answers it: the request the frontend's deleteChatbot sends is never served.
   */
  lemma ChatbotDeleteIsNotServed(id: int)
    ensures Land(["api", "chatbots", IntToDecimal(id)]) == AtRouter(ChatbotsRouter, [IntToDecimal(id)])
    ensures ChatbotRoutes.Dispatch(ChatbotRoutes.DELETE, [IntToDecimal(id)]).None?
  {
    var path := ["api", "chatbots", IntToDecimal(id)];
    assert MOUNTS[1].0 == path[1];
    assert MountFrom("chatbots", 1) == Some(ChatbotsRouter);
    assert MountFrom("chatbots", 0) == Some(ChatbotsRouter);
    assert path[2..] == [IntToDecimal(id)];
    ChatbotRoutes.NoDeleteRoute([IntToDecimal(id)]);
  }
}
