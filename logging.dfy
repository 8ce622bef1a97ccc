/**
 * The slice of Microsoft.Extensions.Logging the interceptors touch: error
 * messages written through LogError and the scopes opened by BeginScope.
 * Only what the interceptors hand over is recorded; formatting, providers
 * and the scope stack are outside the model.
 */
module Logging {
  import opened Wrappers

  /** The state dictionary given to BeginScope: keys to values that may be null. */
  type ScopeState = map<string, Option<string>>

  /** `n` copies of one log message. */
  function Repeated(message: string, n: nat): (r: seq<string>)
    ensures |r| == n
  {
    if n == 0 then [] else Repeated(message, n - 1) + [message]
  }

  class LogScope {
    const state: ScopeState
    var disposed: bool

    constructor (state: ScopeState)
      ensures this.state == state && !disposed
    {
      this.state := state;
      disposed := false;
    }

    method Dispose()
      modifies this
      ensures disposed
    {
      disposed := true;
    }
  }

  class Logger {
    var errors: seq<string>

    constructor ()
      ensures errors == []
    {
      errors := [];
    }

    method LogError(message: string)
      modifies this
      ensures errors == old(errors) + [message]
    {
      errors := errors + [message];
    }

    method BeginScope(state: ScopeState) returns (scope: LogScope)
      ensures fresh(scope) && scope.state == state && !scope.disposed
    {
      scope := new LogScope(state);
    }
  }
}
