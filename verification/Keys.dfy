/**
 The idempotency_key column of credit_ledger_transactions.

 Three kinds of key are built by prefixing a reference ("hold-", "capture-",
 "release-"); a deposit passes any text it likes.  `Key` is the column read back
 through `Parse`, and the lemmas below show that nothing is lost: two parsed keys
 are equal exactly when their texts are, so the UNIQUE constraint on the text is
 uniqueness of `Key` values.
 */
module Keys {
  datatype Key =
    | FreeKey(text: string)
    | HoldKey(ref: string)
    | CaptureKey(ref: string)
    | ReleaseKey(ref: string)

  const HOLD_PREFIX := "hold-"
  const CAPTURE_PREFIX := "capture-"
  const RELEASE_PREFIX := "release-"

  function Text(k: Key): string {
    match k
    case FreeKey(t) => t
    case HoldKey(r) => HOLD_PREFIX + r
    case CaptureKey(r) => CAPTURE_PREFIX + r
    case ReleaseKey(r) => RELEASE_PREFIX + r
  }

  /** Any text the column can hold, classified by its prefix. */
  function Parse(s: string): (k: Key)
    ensures Text(k) == s
  {
    if HOLD_PREFIX <= s then HoldKey(s[|HOLD_PREFIX|..])
    else if CAPTURE_PREFIX <= s then CaptureKey(s[|CAPTURE_PREFIX|..])
    else if RELEASE_PREFIX <= s then ReleaseKey(s[|RELEASE_PREFIX|..])
    else FreeKey(s)
  }

  /** The keys that stand for some text: free keys carry none of the three prefixes. */
  ghost predicate Canonical(k: Key) {
    k.FreeKey? ==> !(HOLD_PREFIX <= k.text) && !(CAPTURE_PREFIX <= k.text) && !(RELEASE_PREFIX <= k.text)
  }

  lemma ParseText(k: Key)
    requires Canonical(k)
    ensures Parse(Text(k)) == k
  {
    var s := Text(k);
    match k
    case FreeKey(_) =>
    case HoldKey(r) => assert s[|HOLD_PREFIX|..] == r;
    case CaptureKey(r) =>
      assert s[0] == 'c';
      assert s[|CAPTURE_PREFIX|..] == r;
    case ReleaseKey(r) =>
      assert s[0] == 'r';
      assert s[|RELEASE_PREFIX|..] == r;
  }

  /** The texts the statements bind. */
  lemma KeyTexts(ref: string)
    ensures Text(HoldKey(ref)) == "hold-" + ref && Text(CaptureKey(ref)) == "capture-" + ref
    ensures Text(ReleaseKey(ref)) == "release-" + ref && Text(FreeKey(ref)) == ref
  {
  }

  /** UNIQUE on the text is UNIQUE on the key. */
  lemma TextIdentifiesKey(a: Key, b: Key)
    requires Canonical(a) && Canonical(b)
    ensures Text(a) == Text(b) <==> a == b
  {
    ParseText(a);
    ParseText(b);
  }
}
