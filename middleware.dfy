/**
  The maintenance-mode routing decision of the request middleware: when the
  `NEXT_PUBLIC_MAINTENANCE_MODE` variable is exactly `"true"`, every request whose
  path does not start with the maintenance page or a static prefix is rewritten to
  `/maintenance`; otherwise every request passes through.
 */
module Maintenance {
  import opened Js

  datatype Decision = Next | Rewrite(pathname: string)

  const MaintenancePath := "/maintenance"
  const StaticPrefixes: seq<string> := ["/_next", "/favicon.ico", "/fonts", "/images", "/api/health"]

  /** `s.startsWith(p)` */
  predicate StartsWith(s: string, p: string) {
    |p| <= |s| && s[..|p|] == p
  }

  predicate IsStatic(pathname: string) {
    exists i :: 0 <= i < |StaticPrefixes| && StartsWith(pathname, StaticPrefixes[i])
  }

  /** `process.env.NEXT_PUBLIC_MAINTENANCE_MODE === "true"`; an unset variable is `None`. */
  predicate Enabled(flag: Option<string>) {
    flag == Some("true")
  }

  function Middleware(flag: Option<string>, pathname: string): (d: Decision)
    ensures !Enabled(flag) ==> d == Next
    ensures d.Rewrite? ==> d.pathname == MaintenancePath
    ensures d.Next? <==> !Enabled(flag) || StartsWith(pathname, MaintenancePath) || IsStatic(pathname)
  {
    if Enabled(flag) && !StartsWith(pathname, MaintenancePath) && !IsStatic(pathname) then Rewrite(MaintenancePath)
    else Next
  }

  /** The rewrite target passes through, so a rewritten request is not rewritten again. */
  lemma RewriteIsFinal(flag: Option<string>, pathname: string)
    ensures Middleware(flag, pathname).Rewrite? ==> Middleware(flag, Middleware(flag, pathname).pathname) == Next
  {
    assert StartsWith(MaintenancePath, MaintenancePath);
  }

  /** Matching is by raw prefix: look-alike paths pass too, while others are still rewritten. */
  lemma RawPrefixMatching()
    ensures Middleware(Some("true"), "/fontsX") == Next
    ensures Middleware(Some("true"), "/maintenance-old") == Next
    ensures Middleware(Some("true"), "/dashboard") == Rewrite("/maintenance")
    ensures Middleware(Some("TRUE"), "/dashboard") == Next
  {
    assert StartsWith("/fontsX", StaticPrefixes[2]);
    assert StartsWith("/maintenance-old", MaintenancePath);
    assert !StartsWith("/dashboard", MaintenancePath) by {
      assert "/dashboard"[1] != MaintenancePath[1];
    }
    assert !IsStatic("/dashboard") by {
      forall i | 0 <= i < |StaticPrefixes|
        ensures !StartsWith("/dashboard", StaticPrefixes[i])
      {
        assert "/dashboard"[1] == 'd';
        assert StaticPrefixes[i][1] != 'd';
      }
    }
  }

  /** Any path below a static prefix passes, whatever follows the prefix. */
  lemma StaticPrefixPasses(flag: Option<string>, i: nat, rest: string)
    requires i < |StaticPrefixes|
    ensures Middleware(flag, StaticPrefixes[i] + rest) == Next
  {
    assert (StaticPrefixes[i] + rest)[..|StaticPrefixes[i]|] == StaticPrefixes[i];
  }
}
