/** UUID.randomUUID().toString(): the random draw itself is a parameter of the
    operations that use it; only the shape of its text matters. */
module UuidText {
  import JavaText

  predicate IsLowerHex(c: char) {
    ('0' <= c <= '9') || ('a' <= c <= 'f')
  }

  /** 8-4-4-4-12 lower-case hexadecimal digits separated by '-'. */
  predicate IsUuidText(s: string) {
    |s| == 36
    && (forall i :: 0 <= i < 36 ==> (s[i] == '-' <==> i in {8, 13, 18, 23}))
    && (forall i :: 0 <= i < 36 && i !in {8, 13, 18, 23} ==> IsLowerHex(s[i]))
  }

  type Uuid = s: string | IsUuidText(s) witness "00000000-0000-0000-0000-000000000000"

  /** A UUID's text holds no whitespace at all, so it has text. */
  lemma UuidHasText(u: Uuid)
    ensures !JavaText.IsBlank(u)
  {
    assert IsLowerHex(u[0]);
  }
}
