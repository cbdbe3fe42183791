/** The authentication middleware constructor. */
module Middlewares {
  import opened Values
  import Auth
  import opened Pipeline

  /** `CreateAuthMiddleware(authServiceURL, microserviceName, method)`. The
      service it asks is the `oracle`: the reply it would give to each check
      request, or the step at which the exchange fails. The middleware calls
      `next` exactly when the guard lets the request through, recording the
      check it made, and otherwise answers the guard's 401. */
  function CreateAuthMiddleware(authServiceURL: string, microserviceName: string, methodName: string,
                                oracle: Auth.CheckRequest -> Auth.CheckReply): (m: Middleware)
    ensures forall req :: Auth.GuardDefined(Auth.AuthConfig(authServiceURL, microserviceName, methodName, oracle), req) ==>
      StageDefined(m, req) &&
      (StepOf(m, req).Enter? <==> Auth.Guard(Auth.AuthConfig(authServiceURL, microserviceName, methodName, oracle), req).Allow?) &&
      (StepOf(m, req).Enter? ==>
         StepOf(m, req) == Enter([Checked(Auth.Guard(Auth.AuthConfig(authServiceURL, microserviceName, methodName, oracle), req).made)], [])) &&
      (StepOf(m, req).Halt? ==>
         StepOf(m, req).response == Auth.Guard(Auth.AuthConfig(authServiceURL, microserviceName, methodName, oracle), req).response)
  {
    Guarded(Auth.AuthConfig(authServiceURL, microserviceName, methodName, oracle))
  }

  /** A chain wrapped in the authentication middleware calls the chain it
      wraps, with the same arguments, exactly when the guard lets the
      request through, and then answers what that chain answers; otherwise
      it answers the guard's 401 and no handler runs. */
  lemma AuthMiddlewareGuardsNext(authServiceURL: string, microserviceName: string, methodName: string,
                                 oracle: Auth.CheckRequest -> Auth.CheckReply, next: Chain, req: Request)
    requires Auth.GuardDefined(Auth.AuthConfig(authServiceURL, microserviceName, methodName, oracle), req)
    requires Auth.Guard(Auth.AuthConfig(authServiceURL, microserviceName, methodName, oracle), req).Allow? ==>
      Runnable(next, req)
    ensures var c := Wrap(CreateAuthMiddleware(authServiceURL, microserviceName, methodName, oracle), next);
      var v := Auth.Guard(Auth.AuthConfig(authServiceURL, microserviceName, methodName, oracle), req);
      Runnable(c, req) &&
      (v.Allow? ==> Run(c, req) == Trace(Run(next, req).outcome, [Checked(v.made)] + Run(next, req).events)) &&
      (v.Deny? ==> Run(c, req).outcome == v.response && v.response.status == StatusUnauthorized &&
                   Invocations(Run(c, req).events) == [])
  {
  }
}
