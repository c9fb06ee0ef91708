/** The fixed lookup table from a transaction's `TransactionType` to one of
    the four institutional categories. Both scripts carry their own copy:
    `classify_tx` in generate_data.py takes the transaction, `classify` in
    check_today.py takes the type value itself. */
module Categories {
  import opened Py

  datatype Category = Settlement | Defi | Identity | AcctMgmt

  const AllCategories: set<Category> := {Settlement, Defi, Identity, AcctMgmt}

  /** Value transfer: payments and checks. */
  const SettlementTypes: set<string> :=
    {"Payment", "CheckCreate", "CheckCash", "CheckCancel"}

  /** Automated market activity: offers and AMM operations. */
  const DefiTypes: set<string> :=
    {"OfferCreate", "OfferCancel",
     "AMMCreate", "AMMDeposit", "AMMWithdraw", "AMMBid", "AMMVote", "AMMDelete"}

  /** Onboarding: DIDs, credentials and deposit authorisation. */
  const IdentityTypes: set<string> :=
    {"DIDSet", "DIDDelete",
     "CredentialCreate", "CredentialAccept", "CredentialDelete",
     "DepositPreauth"}

  /** The dictionary key a category is stored under. */
  function CategoryName(c: Category): string
  {
    match c
    case Settlement => "settlement"
    case Defi => "defi"
    case Identity => "identity"
    case AcctMgmt => "acct_mgmt"
  }

  /** The type names listed for a category (account management is the
      complement of the other three lists). */
  predicate Listed(t: Value, c: Category)
  {
    match c
    case Settlement => t.Str? && t.s in SettlementTypes
    case Defi => t.Str? && t.s in DefiTypes
    case Identity => t.Str? && t.s in IdentityTypes
    case AcctMgmt => !(t.Str? && t.s in SettlementTypes + DefiTypes + IdentityTypes)
  }

  /** `classify(tx_type)` (check_today.py): the argument is whatever
      `tx.get("TransactionType", "")` produced, so it need not be a string;
      a value that is not one of the listed strings is account management. */
  function Classify(t: Value): Category
  {
    if t.Str? && t.s in SettlementTypes then Settlement
    else if t.Str? && t.s in DefiTypes then Defi
    else if t.Str? && t.s in IdentityTypes then Identity
    else AcctMgmt
  }

  /** `classify_tx(tx)` (generate_data.py): reads `TransactionType` with the
      default `""`, so a missing or non-string type is account management. */
  function ClassifyTx(tx: map<string, Value>): Category
  {
    var t := Get(tx, "TransactionType", Str(""));
    if t.Str? && t.s in SettlementTypes then Settlement
    else if t.Str? && t.s in DefiTypes then Defi
    else if t.Str? && t.s in IdentityTypes then Identity
    else AcctMgmt
  }

  /** `classify` is total and exclusive: the category it returns is the
      one and only category whose list holds the type (or, for account
      management, the one whose list is everything not listed elsewhere). */
  lemma ClassifyExact(t: Value)
    ensures forall k :: Listed(t, k) <==> k == Classify(t)
  {
  }

  /** `classify_tx` reads the type with default `""`, so a transaction
      without one is account management; otherwise it is classified like
      its type value. */
  lemma ClassifyTxExact(tx: map<string, Value>)
    ensures "TransactionType" !in tx ==> ClassifyTx(tx) == AcctMgmt
    ensures forall k :: Listed(Get(tx, "TransactionType", Str("")), k) <==> k == ClassifyTx(tx)
  {
  }

  /** The three lists are pairwise disjoint, so no string is listed twice. */
  lemma TablesDisjoint()
    ensures SettlementTypes * DefiTypes == {}
    ensures SettlementTypes * IdentityTypes == {}
    ensures DefiTypes * IdentityTypes == {}
  {
  }

  /** The two copies of the table agree: the category `check_today.py` gives
      a type value is the one `generate_data.py` gives a transaction carrying
      it, and in particular a transaction `{"TransactionType": t}`. */
  lemma ClassifyAgrees(tx: map<string, Value>, t: string)
    ensures ClassifyTx(tx) == Classify(Get(tx, "TransactionType", Str("")))
    ensures ClassifyTx(map["TransactionType" := Str(t)]) == Classify(Str(t))
  {
  }
}
