/** The field names of the canonical decision contracts, grouped by how a field is treated. */
module CanonicalFields {
  import opened Wrappers
  import opened Canonical
  import CanonicalForm

  const FIELD_NAMES := Names(
    moments := {"candle_ts", "through_ts_ms", "decision_ts"},
    permissions := {"entry_allowed", "exit_allowed", "effective_flat", "normalized_exposure_active"},
    plain := {
      "profile_content_hash", "candidate_profile_hash", "dataset_content_hash", "db_data_fingerprint", "market",
      "interval", "signal_timestamp", "candle_basis", "block_reason", "fee_authority_hash", "fee_model_hash",
      "slippage_model_hash", "order_rules_hash", "market_regime", "regime_decision", "regime_block_reason",
      "position_state_hash", "dust_state", "exit_rule", "exit_reason", "exit_evaluations_hash",
      "execution_timing_policy_hash", "replay_fingerprint_hash"},
    ratios := {
      "prev_s", "prev_l", "curr_s", "curr_l", "gap_ratio", "range_ratio", "expected_edge_ratio", "required_edge_ratio"},
    legacyPlain := {"feature_hash"},
    submission := {"submit_expected"},
    presences := {
      "compatibility_fallback", "legacy_context_planning_used", "typed_execution_summary_present",
      "decision_envelope_present", "execution_plan_bundle_present"},
    evidences := {
      "execution_plan_bundle_evidence", "typed_execution_summary_evidence", "execution_submit_plan_evidence",
      "typed_no_submit_proof"},
    declared := {
      "runtime_decision_request_hash", "runtime_strategy_set_manifest_hash", "approved_profile_hash",
      "execution_plan_bundle_hash", "decision_authority_source", "execution_evidence_source",
      "runtime_replay_planning_error", "execution_plan_status", "execution_plan_reason_code", "artifact_grade",
      "authority_plane", "promotion_rejection_reason"},
    commonPlain := {
      "policy_contract_hash", "policy_input_hash", "policy_decision_hash", "decision_input_bundle_hash",
      "decision_input_contract_hash", "decision_input_bundle_payload_hash", "market_snapshot_hash",
      "market_feature_hash", "canonical_feature_projection_hash", "position_snapshot_hash",
      "execution_constraints_hash", "policy_config_hash", "exit_policy_config_hash",
      "final_exit_decision_input_hash", "snapshot_projector_version", "snapshot_projector_hash",
      "execution_summary_hash", "execution_submit_plan_hash", "final_action", "pre_submit_proof_status",
      "execution_block_reason", "submit_plan_source", "submit_plan_authority", "execution_engine",
      "daily_count_snapshot_hash", "daily_count_snapshot_event_set_hash", "participation_policy_hash",
      "participation_input_hash", "participation_decision_hash", "entry_signal_source", "fallback_mode"},
    behavior := BehaviorKeys(
      "strategy_name", "strategy_version", "strategy_decision_contract_version", "raw_signal", "final_signal",
      "strategy_specific_payload"))

  /** With the program's own field names: the comparison sees the exported decision, and what is exported
      is in canonical form. */
  lemma ProgramExport(n: Notation, p: Payload, authority: Option<Value>)
    requires n.Valid() && n.names == FIELD_NAMES && Readable(n, p) && Version(n, p) != 0 && !OneSideBlank(n, p)
    ensures
      var exported := Normalized(n, p, true).value;
      && CanonicalForm.InForm(FIELD_NAMES, exported)
      && ForComparison(n, WithAuthority(Reloaded(exported), authority))
         == Some(WithAuthority(exported, if authority.Some? && authority.value.Dict? then authority else None))
  {
    var exported := Normalized(n, p, true).value;
    ComparisonSeesExport(n, p, authority);
    SecondPassKeepsIff(n, p, true, exported, true);
    CanonicalForm.FixedIffInForm(n, exported, true);
  }
}
