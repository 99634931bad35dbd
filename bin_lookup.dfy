/**
 * Issuer lookup by the first six digits of a card number (the BIN). The BIN
 * table is an input; a table that cannot be queried behaves like an empty one.
 */
module BinLookup {
  import opened Common

  datatype BinInfo = BinInfo(
    binPrefix: string,
    bankName: Option<string>,
    cardBrand: Option<string>,
    cardType: Option<string>,
    countryCode: Option<string>)
  {
    predicate IsTurkishCard() {
      countryCode == Some("TR")
    }

    predicate IsGarantiCard() {
      bankName.Some? && Contains(bankName.value, "Garanti")
    }

    predicate IsYapiKrediCard() {
      bankName.Some? && Contains(bankName.value, "Yapı Kredi")
    }

    predicate IsIsBankCard() {
      bankName.Some? && Contains(bankName.value, "İş Bankası")
    }
  }

  /** The BIN table as one query sees it: its rows in the order returned, or a failed query. */
  datatype BinDatabase = Reachable(rows: seq<BinInfo>) | Unreachable

  /** The first row whose prefix equals `key`. */
  function FirstWithPrefix(rows: seq<BinInfo>, key: string): (r: Option<nat>)
    ensures r.Some? ==> r.value < |rows| && rows[r.value].binPrefix == key
    ensures r.Some? ==> forall j | 0 <= j < r.value :: rows[j].binPrefix != key
    ensures r.None? <==> forall j | 0 <= j < |rows| :: rows[j].binPrefix != key
  {
    if rows == [] then None
    else if rows[0].binPrefix == key then Some(0)
    else
      var rest := FirstWithPrefix(rows[1..], key);
      if rest.Some? then Some(rest.value + 1) else None
  }

  /**
   * `lookup(cardBin)`: nothing for an absent or short BIN; otherwise the first
   * row for the BIN's first six characters; nothing when the query fails.
   */
  function Lookup(cardBin: Option<string>, db: BinDatabase): (r: Option<BinInfo>)
    ensures cardBin.None? || |cardBin.value| < 6 || db.Unreachable? ==> r.None?
    ensures r.Some? ==> r.value in db.rows && r.value.binPrefix == cardBin.value[..6]
    ensures cardBin.Some? && |cardBin.value| >= 6 && db.Reachable? ==>
      (r.None? <==> forall row | row in db.rows :: row.binPrefix != cardBin.value[..6])
  {
    if cardBin.None? || |cardBin.value| < 6 then None
    else match db
      case Unreachable => None
      case Reachable(rows) =>
        var i := FirstWithPrefix(rows, cardBin.value[..6]);
        if i.Some? then Some(rows[i.value]) else None
  }

  /** Only the first six characters of a longer BIN take part in the lookup. */
  lemma {:induction false} LookupUsesSixDigits(cardBin: string, extra: string, db: BinDatabase)
    requires |cardBin| >= 6
    ensures Lookup(Some(cardBin + extra), db) == Lookup(Some(cardBin[..6]), db)
  {
    assert (cardBin + extra)[..6] == cardBin[..6];
    assert cardBin[..6][..6] == cardBin[..6];
  }
}
