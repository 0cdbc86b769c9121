/**
 * TenantService: validates a new tenant's parameters, then migrates its
 * database once; every failure leaves as a RuntimeException wrapping its cause.
 */
module TenantService {
  import opened Wrappers
  import opened Exceptions
  import opened FlywayConfig

  /** A character String.trim() strips: any code point up to U+0020. */
  predicate IsTrimmed(c: char) {
    c <= ' '
  }

  function TrimLeading(s: string): string
    decreases |s|
  {
    if s != [] && IsTrimmed(s[0]) then TrimLeading(s[1..]) else s
  }

  function TrimTrailing(s: string): string
    decreases |s|
  {
    if s != [] && IsTrimmed(s[|s| - 1]) then TrimTrailing(s[..|s| - 1]) else s
  }

  /** String.trim(): drops leading and trailing characters up to U+0020. */
  function Trim(s: string): string {
    TrimTrailing(TrimLeading(s))
  }

  ghost predicate AllTrimmed(s: string) {
    forall i :: 0 <= i < |s| ==> IsTrimmed(s[i])
  }

  lemma {:induction false} TrimLeadingEmptyIff(s: string)
    ensures TrimLeading(s) == [] <==> AllTrimmed(s)
    ensures TrimLeading(s) != [] ==> !IsTrimmed(TrimLeading(s)[0])
    decreases |s|
  {
    if s != [] && IsTrimmed(s[0]) {
      TrimLeadingEmptyIff(s[1..]);
      if AllTrimmed(s[1..]) {
        forall i | 0 <= i < |s| ensures IsTrimmed(s[i]) {
          if i > 0 { assert s[i] == s[1..][i - 1]; }
        }
      } else {
        var i :| 0 <= i < |s[1..]| && !IsTrimmed(s[1..][i]);
        assert s[i + 1] == s[1..][i];
      }
    }
  }

  lemma {:induction false} TrimTrailingKeepsHead(s: string)
    requires s != [] && !IsTrimmed(s[0])
    ensures TrimTrailing(s) != []
    decreases |s|
  {
    if IsTrimmed(s[|s| - 1]) {
      TrimTrailingKeepsHead(s[..|s| - 1]);
    }
  }

  /** `trim().isEmpty()` holds exactly of the strings made only of characters up to U+0020. */
  lemma TrimEmptyIffAllTrimmed(s: string)
    ensures Trim(s) == [] <==> AllTrimmed(s)
  {
    TrimLeadingEmptyIff(s);
    if TrimLeading(s) != [] {
      TrimTrailingKeepsHead(TrimLeading(s));
    }
  }

  /** `s == null || s.trim().isEmpty()` */
  predicate IsBlank(s: Option<string>) {
    s.None? || Trim(s.value) == []
  }

  /** The one foreign call onboarding makes: migrateTenantDatabase with these arguments. */
  datatype MigrateCall = MigrateCall(jdbcUrl: string, username: Option<string>, password: Option<string>, tenantName: string)

  const BlankTenantId: string := "Tenant ID cannot be null or empty"
  const BlankJdbcUrl: string := "JDBC URL cannot be null or empty"
  const OnboardingFailedPrefix: string := "Tenant onboarding failed for: "

  /**
   * onboardNewTenant: checks tenantId, then jdbcUrl (null or blank is
   * rejected; username and password are not checked), then migrates the
   * tenant database once. Returns the exception that escapes, if any, and
   * the migration calls made. Nothing is registered for routing.
   */
  method OnboardNewTenant(tenantId: Option<string>, jdbcUrl: Option<string>,
                          username: Option<string>, password: Option<string>, outcome: MigrateOutcome)
    returns (error: Option<Exception>, calls: seq<MigrateCall>)
    // the migration runs exactly once, and only when both checks pass
    ensures calls == if !IsBlank(tenantId) && !IsBlank(jdbcUrl)
                     then [MigrateCall(jdbcUrl.value, username, password, tenantId.value)] else []
    ensures error.None? <==> !IsBlank(tenantId) && !IsBlank(jdbcUrl) && outcome.Succeeded?
    // whatever fails, a RuntimeException naming the tenant escapes, wrapping the cause
    ensures error.Some? ==>
      error.value.RuntimeException? && error.value.message == OnboardingFailedPrefix + Show(tenantId)
    // the tenant id is checked first
    ensures IsBlank(tenantId) ==> error.value.cause == Some(IllegalArgumentException(BlankTenantId))
    ensures !IsBlank(tenantId) && IsBlank(jdbcUrl) ==>
      error.value.cause == Some(IllegalArgumentException(BlankJdbcUrl))
    ensures !IsBlank(tenantId) && !IsBlank(jdbcUrl) && error.Some? ==>
      error.value.cause == MigrateTenantDatabase(tenantId.value, outcome)
  {
    var failure: Option<Exception> := None;
    calls := [];
    if IsBlank(tenantId) {
      failure := Some(IllegalArgumentException(BlankTenantId));
    } else if IsBlank(jdbcUrl) {
      failure := Some(IllegalArgumentException(BlankJdbcUrl));
    } else {
      calls := calls + [MigrateCall(jdbcUrl.value, username, password, tenantId.value)];
      failure := MigrateTenantDatabase(tenantId.value, outcome);
    }
    if failure.Some? {
      error := Some(RuntimeException(OnboardingFailedPrefix + Show(tenantId), failure));
    } else {
      error := None;
    }
  }

  /** validateTenantDatabase: a placeholder that accepts every database. */
  function ValidateTenantDatabase(jdbcUrl: Option<string>, username: Option<string>, password: Option<string>): (valid: bool)
    ensures valid
  {
    true
  }
}
