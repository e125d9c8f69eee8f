/** Removal of declaration residue from a decision context before it is stored. */
module Residue {
  import opened Wrappers
  import opened Text

  datatype Json = Atom(text: string) | Arr(items: seq<Json>) | Obj(fields: map<string, Json>)

  datatype Stop = Key(key: string) | Index(index: nat)

  const EVIDENCE := "evidence"
  const RISK_DECISION_HASH := "risk_decision_hash"
  const RISK_EVIDENCE_HASH := "risk_evidence_hash"
  const STATE_SOURCE := "state_source"

  predicate Allowed(key: string) {
    key in {"balance_source", "portfolio_risk_state_source", "pre_submit_risk_state_source",
            "state_source", "strategy_risk_state_source"}
  }

  /** Keys that are dropped from an ordinary object. */
  predicate Dropped(key: string) {
    && !Allowed(key)
    && (|| key == "decision_compatibility_residue"
        || EndsWith(key, "_source") || EndsWith(key, "_truth_source") || EndsWith(key, "_compatibility_residue"))
  }

  /** A risk decision: its keys are all kept and its evidence is copied whole. */
  predicate RiskDecision(m: map<string, Json>) {
    && EVIDENCE in m && m[EVIDENCE].Obj?
    && RISK_DECISION_HASH in m && RISK_EVIDENCE_HASH in m && STATE_SOURCE in m
  }

  function StripResidue(j: Json): Json {
    match j
    case Atom(_) => j
    case Arr(items) => Arr(seq(|items|, i requires 0 <= i < |items| => StripResidue(items[i])))
    case Obj(m) =>
      if RiskDecision(m) then
        Obj(map k | k in m :: if k == EVIDENCE then m[k] else StripResidue(m[k]))
      else
        Obj(map k | k in m && !Dropped(k) :: StripResidue(m[k]))
  }

  // ----- What a stripped tree looks like -----

  /** No residue is left anywhere outside the evidence of a risk decision. */
  ghost predicate Clean(j: Json) {
    match j
    case Atom(_) => true
    case Arr(items) => forall i :: 0 <= i < |items| ==> Clean(items[i])
    case Obj(m) =>
      if RiskDecision(m) then forall k :: k in m && k != EVIDENCE ==> Clean(m[k])
      else forall k :: k in m ==> !Dropped(k) && Clean(m[k])
  }

  /** The key ends in this text. */
  ghost predicate Ends(key: string, text: string) { exists head: string :: key == head + text }

  lemma EndsIff(key: string, text: string)
    ensures EndsWith(key, text) <==> Ends(key, text)
  {
    if EndsWith(key, text) {
      assert key == key[..|key| - |text|] + text;
    }
  }

  /** The two shorter endings say it all. */
  lemma DroppedIff(key: string)
    ensures Dropped(key) <==>
      && key !in ["balance_source", "portfolio_risk_state_source", "pre_submit_risk_state_source", "state_source",
                  "strategy_risk_state_source"]
      && (Ends(key, "_source") || Ends(key, "_compatibility_residue"))
  {
    EndsIff(key, "_source");
    EndsIff(key, "_compatibility_residue");
    if EndsWith(key, "_truth_source") {
      assert key[|key| - 7..] == key[|key| - 13..][6..] == "_source";
    }
    assert "decision_compatibility_residue" == "decision" + "_compatibility_residue";
  }

  /** The fields that mark a risk decision. */
  predicate Marked(m: map<string, Json>) {
    && "risk_decision_hash" in m && "risk_evidence_hash" in m && "state_source" in m
    && "evidence" in m && m["evidence"].Obj?
  }

  /** A field of an object is kept exactly when the object is a risk decision or its name is not dropped. */
  lemma FieldKeptIff(m: map<string, Json>, stripped: map<string, Json>, k: string)
    requires stripped == StripResidue(Obj(m)).fields
    ensures k in stripped <==> k in m && (Marked(m) || !Dropped(k))
    ensures k in stripped ==> stripped[k] == if Marked(m) && k == "evidence" then m[k] else StripResidue(m[k])
  {
  }

  lemma EvidenceKept()
    ensures !Dropped(EVIDENCE) && !Dropped(STATE_SOURCE)
  {
    assert EVIDENCE[1..][4] == 'n' && "_source"[4] == 'r';
  }

  lemma HashesKept()
    ensures !Dropped(RISK_DECISION_HASH) && !Dropped(RISK_EVIDENCE_HASH)
  {
    assert RISK_DECISION_HASH[11..][6] == 'h' && RISK_EVIDENCE_HASH[11..][6] == 'h' && "_source"[6] == 'e';
    assert RISK_DECISION_HASH[5..][12] == 'h' && RISK_EVIDENCE_HASH[5..][12] == 'h' && "_truth_source"[12] == 'e';
  }

  /** Stripping an object neither makes nor unmakes a risk decision. */
  lemma RiskDecisionKept(m: map<string, Json>)
    ensures RiskDecision(m) <==> RiskDecision(StripResidue(Obj(m)).fields)
  {
    EvidenceKept();
    HashesKept();
  }

  lemma {:induction false} StripCleans(j: Json)
    ensures Clean(StripResidue(j))
  {
    match j
    case Atom(_) =>
    case Arr(items) =>
      forall i | 0 <= i < |items| ensures Clean(StripResidue(items[i])) { StripCleans(items[i]); }
    case Obj(m) =>
      RiskDecisionKept(m);
      forall k | k in m ensures Clean(StripResidue(m[k])) { StripCleans(m[k]); }
  }

  lemma {:induction false} CleanUnchanged(j: Json)
    requires Clean(j)
    ensures StripResidue(j) == j
  {
    match j
    case Atom(_) =>
    case Arr(items) =>
      forall i | 0 <= i < |items| ensures StripResidue(items[i]) == items[i] { CleanUnchanged(items[i]); }
    case Obj(m) =>
      forall k | k in m && !(RiskDecision(m) && k == EVIDENCE)
          ensures StripResidue(m[k]) == m[k] { CleanUnchanged(m[k]); }
      assert StripResidue(j).fields == m;
  }

  /** Stripping is idempotent, and leaves exactly the clean trees alone. */
  lemma StripIdempotent(j: Json)
    ensures StripResidue(StripResidue(j)) == StripResidue(j)
    ensures StripResidue(j) == j <==> Clean(j)
  {
    StripCleans(j);
    CleanUnchanged(StripResidue(j));
    if Clean(j) {
      CleanUnchanged(j);
    }
  }

  // ----- What stripping keeps -----

  function At(j: Json, path: seq<Stop>): Option<Json> {
    if path == [] then Some(j) else
      match (j, path[0])
      case (Arr(items), Index(i)) => if i < |items| then At(items[i], path[1..]) else None
      case (Obj(m), Key(k)) => if k in m then At(m[k], path[1..]) else None
      case _ => None
  }

  /** The path leads somewhere and passes no dropped key outside risk evidence. */
  predicate Survives(j: Json, path: seq<Stop>) {
    path == [] ||
    match (j, path[0])
    case (Arr(items), Index(i)) => i < |items| && Survives(items[i], path[1..])
    case (Obj(m), Key(k)) =>
      k in m &&
      if RiskDecision(m) then (if k == EVIDENCE then At(m[k], path[1..]).Some? else Survives(m[k], path[1..]))
      else !Dropped(k) && Survives(m[k], path[1..])
    case _ => false
  }

  /** The path enters the evidence of a risk decision. */
  predicate InEvidence(j: Json, path: seq<Stop>) {
    path != [] &&
    match (j, path[0])
    case (Arr(items), Index(i)) => i < |items| && InEvidence(items[i], path[1..])
    case (Obj(m), Key(k)) => k in m && ((RiskDecision(m) && k == EVIDENCE) || InEvidence(m[k], path[1..]))
    case _ => false
  }

  /** Exactly the surviving paths exist afterwards; a surviving subtree inside risk evidence is kept
      verbatim and any other is the stripped original. */
  lemma {:induction false} StripKeepsPaths(j: Json, path: seq<Stop>)
    ensures At(StripResidue(j), path).Some? <==> Survives(j, path)
    ensures Survives(j, path) ==> At(j, path).Some?
    ensures Survives(j, path) && InEvidence(j, path) ==> At(StripResidue(j), path) == At(j, path)
    ensures Survives(j, path) && !InEvidence(j, path) ==>
              At(StripResidue(j), path) == Some(StripResidue(At(j, path).value))
  {
    if path != [] {
      match (j, path[0])
      case (Arr(items), Index(i)) =>
        if i < |items| { StripKeepsPaths(items[i], path[1..]); }
      case (Obj(m), Key(k)) =>
        if k in m { StripKeepsPaths(m[k], path[1..]); }
      case _ =>
    }
  }
}
