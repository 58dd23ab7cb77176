/** The independent verification of what an adapter reported. */
module VerifyEngine {
  import opened AppContracts

  datatype ContradictionBehavior = Fail | StayUnknown

  datatype Policy = Policy(
    postconditions: seq<string>, requiredEvidenceKinds: set<string>, minimumStrength: EvidenceStrength,
    missingEvidenceOutcome: AppOutcome, requiresTransport: bool, contradiction: ContradictionBehavior)

  datatype Evidence = Evidence(kind: string, strength: EvidenceStrength, payload: Payload)

  datatype Finding = WrongKind | WeakEvidence | TransportNotVerified | NotMet(postcondition: string)
    | Unchecked(postcondition: string)

  datatype VerificationRecord = VerificationRecord(result: AppOutcome, findings: seq<Finding>)

  /** The payload stamped on an adapter's result; its own evidence may overwrite the two stamps. */
  function EvidenceFromAdapter(kind: string, result: AdapterResult, stamps: Payload): Evidence {
    Evidence(kind, Direct, stamps + result.evidence)
  }

  function Strength(s: EvidenceStrength): nat {
    match s case Inferred => 1 case Derived => 2 case Direct => 3
  }

  predicate TransportVerified(payload: Payload) {
    && Get(payload, "transport_complete") == JBool(true)
    && Get(payload, "status").JInt? && 200 <= Get(payload, "status").n < 300
    && Get(payload, "tls_verified") != JBool(false)
  }

  /** Whether the evidence is of the right kind, strong enough and, where asked, came over a
      verified transport. */
  predicate Sufficient(policy: Policy, evidence: Evidence) {
    && (policy.requiredEvidenceKinds == {} || evidence.kind in policy.requiredEvidenceKinds)
    && Strength(evidence.strength) >= Strength(policy.minimumStrength)
    && (policy.requiresTransport ==> TransportVerified(evidence.payload))
  }

  /** Whether the payload shows a required postcondition, directly or by the flags adapters set. */
  predicate Met(required: string, reported: AppOutcome, payload: Payload) {
    var post := Get(payload, "postcondition");
    || post == JStr(required)
    || (required == "exists" && Get(payload, "path").Truthy() && reported == Succeeded
        && (Get(payload, "created").Truthy() || Get(payload, "bytes_written") != JNull
            || post == JStr("content_match")))
    || (required == "absent"
        && (Get(payload, "deleted") == JBool(true) || Get(payload, "note") == JStr("already absent")))
  }

  predicate AllMet(policy: Policy, reported: AppOutcome, payload: Payload) {
    forall i :: 0 <= i < |policy.postconditions| ==> Met(policy.postconditions[i], reported, payload)
  }

  /** The verdict in closed form: an ambiguous report stays ambiguous whatever the policy and the
      evidence; a claimed success whose postcondition does not show is contradicted; otherwise
      insufficient evidence decides, and failing that the report stands. */
  function Verdict(policy: Policy, reported: AppOutcome, evidence: Evidence): AppOutcome {
    if reported == Unknown then Unknown
    else if reported == Succeeded && !AllMet(policy, reported, evidence.payload) then
      if policy.contradiction == StayUnknown then Unknown else Failed
    else if !Sufficient(policy, evidence) then policy.missingEvidenceOutcome
    else reported
  }

  method EvaluateVerification(policy: Policy, reported: AppOutcome, evidence: Evidence)
    returns (record: VerificationRecord)
    ensures record.result == Verdict(policy, reported, evidence)
    ensures record.findings == [] <==>
      Sufficient(policy, evidence) && (reported in {Succeeded, Unknown} ==> AllMet(policy, reported, evidence.payload))
  {
    var findings: seq<Finding> := [];
    var outcome := reported;
    var missing := if reported == Unknown then Unknown else policy.missingEvidenceOutcome;
    if policy.requiredEvidenceKinds != {} && evidence.kind !in policy.requiredEvidenceKinds {
      outcome, findings := missing, findings + [WrongKind];
    }
    if Strength(evidence.strength) < Strength(policy.minimumStrength) {
      outcome, findings := missing, findings + [WeakEvidence];
    }
    if policy.requiresTransport && !TransportVerified(evidence.payload) {
      outcome, findings := missing, findings + [TransportNotVerified];
    }
    ghost var gated := outcome;
    var post := Get(evidence.payload, "postcondition");
    for i := 0 to |policy.postconditions|
      invariant outcome ==
        if reported == Succeeded && !(forall j :: 0 <= j < i ==> Met(policy.postconditions[j], reported, evidence.payload))
        then (if policy.contradiction == StayUnknown then Unknown else Failed) else gated
      invariant findings == [] <==>
        && Sufficient(policy, evidence)
        && (reported in {Succeeded, Unknown} ==>
              forall j :: 0 <= j < i ==> Met(policy.postconditions[j], reported, evidence.payload))
    {
      var required := policy.postconditions[i];
      if post == JStr(required) { continue; }
      if required == "exists" && Get(evidence.payload, "path").Truthy() {
        if reported == Succeeded
          && (Get(evidence.payload, "created").Truthy() || Get(evidence.payload, "bytes_written") != JNull
              || post in {JStr("content_match"), JStr("exists")})
        {
          continue;
        }
      }
      if required == "absent"
        && (post == JStr("absent") || Get(evidence.payload, "deleted") == JBool(true)
            || Get(evidence.payload, "note") == JStr("already absent"))
      {
        continue;
      }
      if reported == Succeeded {
        outcome := if policy.contradiction == StayUnknown then Unknown else Failed;
        findings := findings + [NotMet(required)];
      } else if reported == Unknown {
        outcome, findings := Unknown, findings + [Unchecked(required)];
      }
    }
    record := VerificationRecord(outcome, findings);
  }

  /** Verification alone never creates a success: unless the policy itself says that missing
      evidence counts as success, a success was reported, shown and sufficiently evidenced. */
  lemma SuccessIsEarned(policy: Policy, reported: AppOutcome, evidence: Evidence)
    requires policy.missingEvidenceOutcome != Succeeded
    ensures Verdict(policy, reported, evidence) == Succeeded <==>
      reported == Succeeded && AllMet(policy, reported, evidence.payload) && Sufficient(policy, evidence)
  {}
}
