/** How the views turn the identifier in a URL into a primary key.  The
    formatted identifiers are "<PREFIX>-%04d" (gigs/models.py, tutors/models.py);
    a URL may carry either that form or the bare primary key. */
module UrlKeys {
  import opened Wrappers
  import opened Text

  /** The outcome of resolving a URL identifier before the database is asked. */
  datatype KeyLookup =
    | ByPk(pk: nat)   // the row with this primary key is looked up
    | BadFormat       // the prefixed form did not parse: 400 "Invalid ... ID format"
    | LookupCrash     // a bare key that is not a number: the lookup raises, 500

  /** The second piece of s.split('-'), which exists as soon as s has a dash. */
  function SecondPiece(s: string): string
    requires '-' in s
  {
    Split(s, '-')[1]
  }

  /** The piece after "<p0>-" in "<p0>-<d><rest>" is d when d has no dash and
      rest is empty or starts with one. */
  lemma SecondPieceOf(p0: string, d: string, rest: string)
    requires '-' !in p0 && '-' !in d
    requires rest == [] || rest[0] == '-'
    ensures '-' in p0 + "-" + d + rest
    ensures SecondPiece(p0 + "-" + d + rest) == d
  {
    var s := p0 + "-" + d + rest;
    assert s[|p0|] == '-';
    assert s == p0 + ['-'] + (d + rest);
    SplitAfterFirst(p0, '-', d + rest);
    if rest == [] {
      assert d + rest == d;
    } else {
      assert d + rest == d + ['-'] + rest[1..];
      SplitAfterFirst(d, '-', rest[1..]);
    }
  }

  /** The inline lookup of the detail and action views: a prefixed identifier
      is cut at its first dash and int() is applied to the next piece (a
      failure answers 400); any other identifier goes to the database as the
      primary key, where a value that is not a number raises. */
  function InlineKey(prefix: string, s: string): (k: KeyLookup)
    requires |prefix| >= 1 && prefix[|prefix| - 1] == '-'
    ensures !StartsWith(s, prefix) ==> (k.ByPk? <==> PyInt(s).Some?) && !k.BadFormat?
    ensures StartsWith(s, prefix) ==> !k.LookupCrash?
  {
    if StartsWith(s, prefix) then
      assert s[|prefix| - 1] == prefix[|prefix| - 1];
      match PyInt(SecondPiece(s))
      case Some(n) => ByPk(n)
      case None => BadFormat
    else
      match PyInt(s)
      case Some(n) => ByPk(n)
      case None => LookupCrash
  }

  /** A formatted identifier leads back to the primary key it was made from. */
  lemma InlineKeyRoundTrip(p0: string, pk: nat)
    requires |p0| >= 1 && '-' !in p0
    ensures InlineKey(p0 + "-", p0 + "-" + Padded(pk, 4)) == ByPk(pk)
  {
    var d := Padded(pk, 4);
    var s := p0 + "-" + d;
    assert '-' !in d by {
      assert forall i :: 0 <= i < |d| ==> IsDigit(d[i]);
    }
    SecondPieceOf(p0, d, []);
    assert s == p0 + "-" + d + [];
    assert StartsWith(s, p0 + "-") by {
      assert s[..|p0| + 1] == p0 + "-";
    }
    PaddedValue(pk, 4);
  }

  /** Only the first piece after the prefix is read: "<p0>-12-3" names 12. */
  lemma InlineKeyIgnoresTail(p0: string, d: string, rest: string)
    requires |p0| >= 1 && '-' !in p0 && |d| >= 1 && AllDigits(d)
    requires rest == [] || rest[0] == '-'
    ensures InlineKey(p0 + "-", p0 + "-" + d + rest) == ByPk(DigitsValue(d))
  {
    var s := p0 + "-" + d + rest;
    assert '-' !in d by {
      assert forall i :: 0 <= i < |d| ==> IsDigit(d[i]);
    }
    SecondPieceOf(p0, d, rest);
    assert StartsWith(s, p0 + "-") by {
      assert s[..|p0| + 1] == p0 + "-";
    }
  }
}
