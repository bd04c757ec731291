/**
 The authentication middleware the web module registers at start-up: the
 API-key middleware always, then the local-request, anonymous-package-manager
 and role-mapping middlewares, each only when its switch is on, in that order.
 */
module AuthMiddleware {

  /** The kinds of authentication middleware the module can register. */
  datatype Middleware =
    | ApiKeyAuthentication
    | LocalRequestAuthentication
    | AnonymousPackageManager
    | RoleMappingAuthentication

  /** The three switches that decide which optional middleware is registered. */
  datatype AuthFlags = AuthFlags(
    handleLocalRequestsAsAdmin: bool,
    allowAnonymousPackageChanges: bool,
    roleMappingsEnabled: bool
  )

  /** Position of a middleware kind in the fixed registration order. */
  function Rank(m: Middleware): nat {
    match m
    case ApiKeyAuthentication => 0
    case LocalRequestAuthentication => 1
    case AnonymousPackageManager => 2
    case RoleMappingAuthentication => 3
  }

  /** Whether the switches call for middleware `m`. */
  predicate Enabled(f: AuthFlags, m: Middleware) {
    match m
    case ApiKeyAuthentication => true
    case LocalRequestAuthentication => f.handleLocalRequestsAsAdmin
    case AnonymousPackageManager => f.allowAnonymousPackageChanges
    case RoleMappingAuthentication => f.roleMappingsEnabled
  }

  /** Entries strictly follow the registration order, so none repeats. */
  predicate InRegistrationOrder(chain: seq<Middleware>) {
    forall i, j :: 0 <= i < j < |chain| ==> Rank(chain[i]) < Rank(chain[j])
  }

  /** `LoadAuthMiddleware`: the middleware registered for the given switches, in order. */
  function LoadAuthMiddleware(f: AuthFlags): (chain: seq<Middleware>)
    ensures |chain| > 0 && chain[0] == ApiKeyAuthentication
    ensures forall m :: m in chain <==> Enabled(f, m)
    ensures InRegistrationOrder(chain)
  {
    [ApiKeyAuthentication]
    + (if f.handleLocalRequestsAsAdmin then [LocalRequestAuthentication] else [])
    + (if f.allowAnonymousPackageChanges then [AnonymousPackageManager] else [])
    + (if f.roleMappingsEnabled then [RoleMappingAuthentication] else [])
  }

  /** A non-empty chain holds its first entry. */
  lemma FirstIsMember(chain: seq<Middleware>)
    ensures |chain| > 0 ==> chain[0] in chain
  {
  }

  /** Two ordered chains holding the same kinds are the same chain. */
  lemma {:induction false} OrderedChainsWithSameKindsAgree(a: seq<Middleware>, b: seq<Middleware>)
    requires InRegistrationOrder(a) && InRegistrationOrder(b)
    requires forall m :: m in a <==> m in b
    ensures a == b
    decreases |a|
  {
    if |a| == 0 || |b| == 0 {
      FirstIsMember(a);
      FirstIsMember(b);
    } else {
      assert a[0] == b[0] by {
        assert a[0] in b && b[0] in a;
        var i :| 0 <= i < |b| && b[i] == a[0];
        var j :| 0 <= j < |a| && a[j] == b[0];
        assert Rank(b[0]) <= Rank(b[i]) && Rank(a[0]) <= Rank(a[j]);
      }
      assert a == [a[0]] + a[1..];
      assert b == [b[0]] + b[1..];
      forall m
        ensures m in a[1..] <==> m in b[1..]
      {
        if m in a[1..] {
          var k :| 0 <= k < |a[1..]| && a[1..][k] == m;
          assert Rank(a[0]) < Rank(a[k + 1]);
          assert m in b && m != b[0];
        }
        if m in b[1..] {
          var k :| 0 <= k < |b[1..]| && b[1..][k] == m;
          assert Rank(b[0]) < Rank(b[k + 1]);
          assert m in a && m != a[0];
        }
      }
      OrderedChainsWithSameKindsAgree(a[1..], b[1..]);
    }
  }

  /**
   Nothing else is added: any chain in registration order that holds exactly
   the middleware the switches call for is the registered chain.
   */
  lemma ChainDeterminedBySwitches(f: AuthFlags, chain: seq<Middleware>)
    requires InRegistrationOrder(chain)
    requires forall m :: m in chain <==> Enabled(f, m)
    ensures chain == LoadAuthMiddleware(f)
  {
    OrderedChainsWithSameKindsAgree(chain, LoadAuthMiddleware(f));
  }

  /** Each middleware kind is registered at most once. */
  lemma NoKindRepeats(f: AuthFlags, i: int, j: int)
    requires 0 <= i < j < |LoadAuthMiddleware(f)|
    ensures LoadAuthMiddleware(f)[i] != LoadAuthMiddleware(f)[j]
  {
  }

  /** When present, the role-mapping middleware comes after every other one. */
  lemma RoleMappingComesLast(f: AuthFlags)
    requires f.roleMappingsEnabled
    ensures var chain := LoadAuthMiddleware(f);
            chain[|chain| - 1] == RoleMappingAuthentication
  {
    var chain := LoadAuthMiddleware(f);
    assert RoleMappingAuthentication in chain;
  }
}
