/** Authorisations of trading keys: the ledger keeps none of them, and takes only complete ones. */
module Authorisations {
  import opened Int64
  import opened Text
  import opened Ledger

  /** An account, a chain, and no text left blank. */
  ghost predicate Complete(w: KeyWitness) {
    && w.account > 0 && w.chainId > 0
    && !Blank(w.tradingKeyId) && !Blank(w.authorizationRef) && !Blank(w.wallet)
    && !Blank(w.vault) && !Blank(w.publicKey) && !Blank(w.signature)
  }

  /** Exactly which authorisations are taken; the ledger stays as it is. */
  lemma AuthorisationTakenIff(s: State, e: Entry)
    requires e.payload.TradingKeyAuthorized?
    ensures Apply(s, e).Ok() <==> Complete(e.payload.keyWitness)
    ensures Apply(s, e).state == s
  {
    hide TrimSpace, Blank;
    var w := e.payload.keyWitness;
    TrimsToNothing(w.tradingKeyId);
    TrimsToNothing(w.authorizationRef);
    TrimsToNothing(w.wallet);
    TrimsToNothing(w.vault);
    TrimsToNothing(w.publicKey);
    TrimsToNothing(w.signature);
  }

  /** Every authorisation in an accepted run names an account and a chain and carries a signature. */
  lemma {:induction false} AuthorisationsComplete(s: State, entries: seq<Entry>, i: nat)
    requires Run(s, entries).Ok() && i < |entries| && entries[i].payload.TradingKeyAuthorized?
    ensures Complete(entries[i].payload.keyWitness)
    decreases entries
  {
    hide Apply, Complete;
    if i == 0 {
      AuthorisationTakenIff(s, entries[0]);
    } else {
      AuthorisationsComplete(Apply(s, entries[0]).state, entries[1..], i - 1);
    }
  }
}
