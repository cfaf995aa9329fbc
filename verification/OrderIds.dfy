/** The two spellings of an order id: the public one, `order-<digits>`, and that of the database, the bare digits. */
module OrderIds {
  import opened Numerals

  const PREFIX := "order-"

  /** /^\d+$/ */
  predicate AllDigits(s: string)
  {
    s != "" && forall i :: 0 <= i < |s| ==> IsDigit(s[i])
  }

  /** /^order-(\d+)$/ */
  predicate IsPublic(s: string)
  {
    |s| > |PREFIX| && s[..|PREFIX|] == PREFIX && AllDigits(s[|PREFIX|..])
  }

  function CanonicalOrderId(id: string): string
  {
    if IsPublic(id) then PREFIX + id[|PREFIX|..]
    else if AllDigits(id) then PREFIX + id
    else id
  }

  function ToDbOrderId(id: string): string
  {
    if IsPublic(id) then id[|PREFIX|..] else id
  }

  lemma PublicIsNotDigits(id: string)
    requires IsPublic(id)
    ensures !AllDigits(id)
  {
    assert id[0] == id[..|PREFIX|][0] == 'o';
  }

  lemma PrefixedIsPublic(digits: string)
    requires AllDigits(digits)
    ensures IsPublic(PREFIX + digits) && (PREFIX + digits)[|PREFIX|..] == digits
  {
    assert (PREFIX + digits)[..|PREFIX|] == PREFIX;
  }

  /** Each spelling of an id, and the canonical one, name the same database row. */
  lemma CanonicalNamesSameRow(id: string)
    ensures ToDbOrderId(CanonicalOrderId(id)) == ToDbOrderId(id)
    ensures CanonicalOrderId(ToDbOrderId(id)) == CanonicalOrderId(id)
    ensures CanonicalOrderId(CanonicalOrderId(id)) == CanonicalOrderId(id)
  {
    if IsPublic(id) {
      PublicIsNotDigits(id);
      PrefixedIsPublic(id[|PREFIX|..]);
      NotPublicInside(id);
    } else if AllDigits(id) {
      PrefixedIsPublic(id);
    }
  }

  lemma NotPublicInside(id: string)
    requires IsPublic(id)
    ensures !IsPublic(id[|PREFIX|..])
  {
    if IsPublic(id[|PREFIX|..]) {
      PublicIsNotDigits(id[|PREFIX|..]);
    }
  }

  /**
   Events are published and subscribed to under canonical ids, rows are read by database ids: two spellings share a
   stream exactly when they name the same row.
   */
  lemma SameStreamIffSameRow(a: string, b: string)
    ensures CanonicalOrderId(a) == CanonicalOrderId(b) <==> ToDbOrderId(a) == ToDbOrderId(b)
  {
    CanonicalNamesSameRow(a);
    CanonicalNamesSameRow(b);
  }
}
