/** What a provider declares it can honour, and the gate every intent passes
    before the provider is touched. */
module Capability {
  import opened Types

  datatype Granularity = Exact | ProviderResponseBoundary

  datatype CacheTreatment = NotApplicable | Included | Excluded | ProviderDefinedWithExcludedFallback

  /** The unit, enforcement boundary and cache treatment of a ceiling. */
  datatype CeilingCapability = CeilingCapability(
    meter: string, granularity: Granularity, cache: CacheTreatment)

  datatype TurnCeiling = TurnCeiling(capability: CeilingCapability, limit: u64)

  /** Which conversation a turn continues, and who chose its name. */
  datatype Resume = ClientAssigned(id: string) | ProviderAssigned(id: string)

  /** The boundaries and hints an agent definition asks for. */
  datatype Wants = Wants(
    sealed: bool,
    ownConfigHome: bool,
    sandboxed: bool,
    mcp: Option<bool>,      // the endpoint list, and whether it is exclusive
    namedTools: bool,
    maxTurns: bool,
    effort: bool)

  datatype Intent = Intent(
    wants: Wants, resume: Option<Resume>, instructions: bool, ceiling: Option<TurnCeiling>)

  datatype Capabilities = Capabilities(
    isolation: bool,
    credentialIsolation: bool,
    sandbox: bool,
    scopedMcp: bool,
    strictMcp: bool,
    allowedTools: bool,
    clientAssignedResume: bool,
    maxProviderTurns: bool,
    effort: bool,
    turnCeiling: Option<CeilingCapability>,
    reportsCost: bool,
    reportsTokenUsage: bool)

  /** The backends one server process was built with, by provider key. */
  type Registry = map<string, Capabilities>

  datatype Constraint =
    | Isolation | CredentialIsolation | Sandbox | ScopedMcp | StrictMcp | AllowedTools
    | ClientAssignedResume | MaxProviderTurns | Ceiling | Effort

  predicate Security(c: Constraint) {
    match c
    case Isolation | CredentialIsolation | Sandbox | ScopedMcp | StrictMcp | AllowedTools => true
    case ClientAssignedResume | MaxProviderTurns | Ceiling | Effort => false
  }

  /** Dropping this constraint refuses the turn rather than degrading it. */
  predicate Fails(c: Constraint) { c == Ceiling || Security(c) }

  /** The intent asks for `c` and the provider cannot honour it. */
  predicate Unmet(caps: Capabilities, intent: Intent, c: Constraint) {
    match c
    case Isolation => intent.wants.sealed && !caps.isolation
    case CredentialIsolation => intent.wants.ownConfigHome && !caps.credentialIsolation
    case Sandbox => intent.wants.sandboxed && !caps.sandbox
    case ScopedMcp => intent.wants.mcp.Some? && !caps.scopedMcp
    case StrictMcp => intent.wants.mcp == Some(true) && caps.scopedMcp && !caps.strictMcp
    case AllowedTools => intent.wants.namedTools && !caps.allowedTools
    case ClientAssignedResume =>
      intent.resume.Some? && intent.resume.value.ClientAssigned? && !caps.clientAssignedResume
    case MaxProviderTurns => intent.wants.maxTurns && !caps.maxProviderTurns
    case Ceiling => intent.ceiling.Some? && caps.turnCeiling != Some(intent.ceiling.value.capability)
    case Effort => intent.wants.effort && !caps.effort
  }

  predicate Blocked(caps: Capabilities, intent: Intent) {
    exists c :: Fails(c) && Unmet(caps, intent, c)
  }

  /** The provider provides every boundary the definition asks for. */
  predicate BoundariesHeld(caps: Capabilities, wants: Wants) {
    && (wants.sealed ==> caps.isolation)
    && (wants.ownConfigHome ==> caps.credentialIsolation)
    && (wants.sandboxed ==> caps.sandbox)
    && (wants.mcp.Some? ==> caps.scopedMcp)
    && (wants.mcp == Some(true) ==> caps.strictMcp)
    && (wants.namedTools ==> caps.allowedTools)
  }

  /** The gate refuses exactly the turns whose boundaries or spend ceiling the
      provider would silently drop. */
  lemma GateIsExact(caps: Capabilities, intent: Intent)
    ensures !Blocked(caps, intent) <==>
            && BoundariesHeld(caps, intent.wants)
            && (intent.ceiling.Some? ==> caps.turnCeiling == Some(intent.ceiling.value.capability))
  {
    if Blocked(caps, intent) {
      var c :| Fails(c) && Unmet(caps, intent, c);
      match c {
        case StrictMcp => assert intent.wants.mcp.Some?;
        case _ =>
      }
    } else {
      assert Fails(Ceiling) && !Unmet(caps, intent, Ceiling);
      assert Fails(Isolation) && !Unmet(caps, intent, Isolation);
      assert Fails(CredentialIsolation) && !Unmet(caps, intent, CredentialIsolation);
      assert Fails(Sandbox) && !Unmet(caps, intent, Sandbox);
      assert Fails(ScopedMcp) && !Unmet(caps, intent, ScopedMcp);
      assert Fails(StrictMcp) && !Unmet(caps, intent, StrictMcp);
      assert Fails(AllowedTools) && !Unmet(caps, intent, AllowedTools);
    }
  }

  /** A provider honours an intent in full when it holds its boundaries and its
      ceiling and lacks none of the hints: naming the conversation, bounding the
      provider's own turns, and the effort. */
  lemma NothingIsDroppedIff(caps: Capabilities, intent: Intent)
    ensures (forall c :: !Unmet(caps, intent, c)) <==>
            && BoundariesHeld(caps, intent.wants)
            && (intent.ceiling.Some? ==> caps.turnCeiling == Some(intent.ceiling.value.capability))
            && (intent.resume.Some? && intent.resume.value.ClientAssigned? ==> caps.clientAssignedResume)
            && (intent.wants.maxTurns ==> caps.maxProviderTurns)
            && (intent.wants.effort ==> caps.effort)
  {
    GateIsExact(caps, intent);
    if forall c :: !Unmet(caps, intent, c) {
      assert !Unmet(caps, intent, ClientAssignedResume) && !Unmet(caps, intent, MaxProviderTurns);
      assert !Unmet(caps, intent, Effort);
    } else {
      var c :| Unmet(caps, intent, c);
      assert Fails(c) ==> Blocked(caps, intent);
    }
  }

  const DECLARED := [
    Isolation, CredentialIsolation, Sandbox, ScopedMcp, StrictMcp, AllowedTools,
    ClientAssignedResume, MaxProviderTurns, Ceiling, Effort]

  /** The misses among the first `n` declared constraints, in declaration order. */
  function Misses(caps: Capabilities, intent: Intent, n: nat): seq<Constraint>
    requires n <= |DECLARED|
  {
    if n == 0 then []
    else if Unmet(caps, intent, DECLARED[n - 1]) then Misses(caps, intent, n - 1) + [DECLARED[n - 1]]
    else Misses(caps, intent, n - 1)
  }

  lemma {:induction false} MissesAreUnmet(caps: Capabilities, intent: Intent, n: nat, c: Constraint)
    requires n <= |DECLARED|
    ensures c in Misses(caps, intent, n) <==> c in DECLARED[..n] && Unmet(caps, intent, c)
  {
    if n != 0 {
      MissesAreUnmet(caps, intent, n - 1, c);
      assert DECLARED[..n] == DECLARED[..n - 1] + [DECLARED[n - 1]];
    }
  }

  lemma EveryConstraintIsDeclared(c: Constraint)
    ensures c in DECLARED
  {
    match c
    case Isolation => assert DECLARED[0] == c;
    case CredentialIsolation => assert DECLARED[1] == c;
    case Sandbox => assert DECLARED[2] == c;
    case ScopedMcp => assert DECLARED[3] == c;
    case StrictMcp => assert DECLARED[4] == c;
    case AllowedTools => assert DECLARED[5] == c;
    case ClientAssignedResume => assert DECLARED[6] == c;
    case MaxProviderTurns => assert DECLARED[7] == c;
    case Ceiling => assert DECLARED[8] == c;
    case Effort => assert DECLARED[9] == c;
  }

  /** The list `validate` builds holds an entry exactly for each constraint asked for and unmet. */
  lemma ValidationIsComplete(caps: Capabilities, intent: Intent)
    ensures forall c :: c in Misses(caps, intent, |DECLARED|) <==> Unmet(caps, intent, c)
  {
    forall c ensures c in Misses(caps, intent, |DECLARED|) <==> Unmet(caps, intent, c) {
      MissesAreUnmet(caps, intent, |DECLARED|, c);
      EveryConstraintIsDeclared(c);
      assert DECLARED[..|DECLARED|] == DECLARED;
    }
  }

  /** The authority half of `Capabilities::validate`. */
  method MissedBoundaries(caps: Capabilities, intent: Intent) returns (unsupported: seq<Constraint>)
    ensures unsupported == Misses(caps, intent, 6)
  {
    unsupported := [];
    if intent.wants.sealed && !caps.isolation {
      unsupported := unsupported + [Isolation];
    }
    assert unsupported == Misses(caps, intent, 1);
    if intent.wants.ownConfigHome && !caps.credentialIsolation {
      unsupported := unsupported + [CredentialIsolation];
    }
    assert unsupported == Misses(caps, intent, 2);
    if intent.wants.sandboxed && !caps.sandbox {
      unsupported := unsupported + [Sandbox];
    }
    assert unsupported == Misses(caps, intent, 3);
    if intent.wants.mcp.Some? {
      if !caps.scopedMcp {
        unsupported := unsupported + [ScopedMcp];
      } else if intent.wants.mcp.value && !caps.strictMcp {
        unsupported := unsupported + [StrictMcp];
      }
    }
    assert Misses(caps, intent, 5) ==
      Misses(caps, intent, 3)
      + (if Unmet(caps, intent, ScopedMcp) then [ScopedMcp] else [])
      + (if Unmet(caps, intent, StrictMcp) then [StrictMcp] else []);
    assert unsupported == Misses(caps, intent, 5);
    if intent.wants.namedTools && !caps.allowedTools {
      unsupported := unsupported + [AllowedTools];
    }
  }

  /** `Capabilities::validate`: everything the provider cannot honour. */
  method Validate(caps: Capabilities, intent: Intent) returns (unsupported: seq<Constraint>)
    ensures unsupported == Misses(caps, intent, |DECLARED|)
    ensures forall c :: c in unsupported <==> Unmet(caps, intent, c)
  {
    unsupported := MissedBoundaries(caps, intent);
    if intent.resume.Some? && intent.resume.value.ClientAssigned? && !caps.clientAssignedResume {
      unsupported := unsupported + [ClientAssignedResume];
    }
    assert unsupported == Misses(caps, intent, 7);
    if intent.wants.maxTurns && !caps.maxProviderTurns {
      unsupported := unsupported + [MaxProviderTurns];
    }
    assert unsupported == Misses(caps, intent, 8);
    if intent.ceiling.Some? {
      if caps.turnCeiling.None? {
        unsupported := unsupported + [Ceiling];
      } else if caps.turnCeiling.value != intent.ceiling.value.capability {
        unsupported := unsupported + [Ceiling];
      }
    }
    assert unsupported == Misses(caps, intent, 9);
    if intent.wants.effort && !caps.effort {
      unsupported := unsupported + [Effort];
    }
    ValidationIsComplete(caps, intent);
  }

  /** `Validation::blocking`: the first entry that must stop the turn. */
  method Blocking(unsupported: seq<Constraint>) returns (first: Option<Constraint>)
    ensures first.None? ==> forall c | c in unsupported :: !Fails(c)
    ensures first.Some? ==>
              exists i | 0 <= i < |unsupported| ::
                && unsupported[i] == first.value && Fails(first.value)
                && forall j | 0 <= j < i :: !Fails(unsupported[j])
  {
    for i := 0 to |unsupported|
      invariant forall j | 0 <= j < i :: !Fails(unsupported[j])
    {
      if Fails(unsupported[i]) {
        return Some(unsupported[i]);
      }
    }
    return None;
  }
}
