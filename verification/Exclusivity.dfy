/**
 Account exclusivity: the queue gates scenarios, resolution gives distinct scenarios distinct
 accounts, so a mutating trial is alone on its AWS accounts.
 */
module Exclusivity {
  import opened Admission
  import opened QueueProtocol
  import QueueTheorems
  import Accounts

  /** The account ids a trial is configured with: its scenario's slice of the resolved environment. */
  ghost function AccountsOf(env: Accounts.Environment, scenario: string): set<nat> {
    if scenario in env then env[scenario].Values else {}
  }

  /**
   While a mutating trial holds its gate - its attempts, its backoff sleeps and its resets all
   included - no other trial that holds a gate or runs shares an account with it.
   */
  lemma MutatingTrialsOwnTheirAccounts(
      org: Accounts.Organization, required: map<string, set<string>>, env: Accounts.Environment,
      b: Batch, steps: seq<Step>, t: nat, u: nat)
    requires Accounts.Answers(org, true, required, env)
    requires IsRun(b, steps) && t < |b.trials| && u < |b.trials| && t != u
    requires b.trials[t].mode.Mutating? && Holding(QueueTheorems.PcOf(b, steps, t))
    requires Holding(QueueTheorems.PcOf(b, steps, u))
    ensures AccountsOf(env, b.trials[t].scenario) !! AccountsOf(env, b.trials[u].scenario)
  {
    var s1, s2 := b.trials[t].scenario, b.trials[u].scenario;
    if s1 == s2 {
      QueueTheorems.WritersAreAlone(b, steps, t, u);
    } else if id :| id in AccountsOf(env, s1) && id in AccountsOf(env, s2) {
      var t1 :| t1 in env[s1] && env[s1][t1] == id;
      var t2 :| t2 in env[s2] && env[s2][t2] == id;
      Accounts.DistinctKeysDistinctAccounts(org, true, required, env, s1, t1, s2, t2);
    }
  }
}
