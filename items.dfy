/**
 * The rows of the paged data set (`Item`), the decimal ids they carry, and
 * the generator that simulates a remote fetch (`ItemGenerator.getRemoteData`).
 */
module Items {
  import opened Wrappers

  /** An immutable row; equality is structural over all three fields, as for a Kotlin data class. */
  datatype Item = Item(id: string, name: string, desc: string)

  /** Number of items one remote fetch produces: the generator loops over 0..20 inclusive. */
  const BatchSize: nat := 21

  // ---------------------------------------------------------------------------
  // Decimal text: Kotlin's Int.toString() and String.toInt()
  // ---------------------------------------------------------------------------

  predicate IsDigit(c: char)
  {
    '0' <= c <= '9'
  }

  predicate AllDigits(s: string)
  {
    forall i :: 0 <= i < |s| ==> IsDigit(s[i])
  }

  function DigitChar(d: nat): (c: char)
    requires d < 10
    ensures IsDigit(c) && c as int - '0' as int == d
  {
    ('0' as int + d) as char
  }

  function DigitValue(c: char): nat
    requires IsDigit(c)
  {
    c as int - '0' as int
  }

  /** Decimal digits of `n`, most significant first. */
  function NatToString(n: nat): (s: string)
    ensures |s| >= 1 && AllDigits(s)
    ensures n > 0 ==> s[0] != '0'
  {
    if n < 10 then [DigitChar(n)] else NatToString(n / 10) + [DigitChar(n % 10)]
  }

  /** String template `"$n"` on an Int: a leading '-' for negative values. */
  function IntToString(n: int): string
  {
    if n < 0 then "-" + NatToString(-n) else NatToString(n)
  }

  /** Value of a string of decimal digits read left to right. */
  function DigitsValue(s: string): nat
    requires AllDigits(s)
  {
    if |s| == 0 then 0 else DigitsValue(s[..|s| - 1]) * 10 + DigitValue(s[|s| - 1])
  }

  /**
   * `String.toIntOrNull()` in radix 10: an optional leading '+' or '-'
   * followed by at least one digit; anything else has no value (where
   * `toInt()` would throw).
   */
  function ParseInt(s: string): Option<int>
  {
    if |s| == 0 then None
    else if s[0] == '-' || s[0] == '+' then
      if |s| == 1 || !AllDigits(s[1..]) then None
      else if s[0] == '-' then Some(-(DigitsValue(s[1..]) as int))
      else Some(DigitsValue(s[1..]))
    else if AllDigits(s) then Some(DigitsValue(s))
    else None
  }

  lemma {:induction false} DigitsValueOfNatToString(n: nat)
    ensures DigitsValue(NatToString(n)) == n
  {
    if n >= 10 {
      var s := NatToString(n);
      var p := NatToString(n / 10);
      assert s == p + [DigitChar(n % 10)];
      assert s[..|s| - 1] == p;
      DigitsValueOfNatToString(n / 10);
    }
  }

  /** Parsing an id written by `"$n"` gives back `n`: the round trip `getRefreshKey` relies on. */
  lemma ParseIntOfIntToString(n: int)
    ensures ParseInt(IntToString(n)) == Some(n)
  {
    if n < 0 {
      var t := NatToString(-n);
      assert IntToString(n)[1..] == t;
      DigitsValueOfNatToString(-n);
    } else {
      DigitsValueOfNatToString(n);
    }
  }

  /** Distinct integers render as distinct ids. */
  lemma IntToStringInjective(m: int, n: int)
    requires IntToString(m) == IntToString(n)
    ensures m == n
  {
    ParseIntOfIntToString(m);
    ParseIntOfIntToString(n);
  }

  // ---------------------------------------------------------------------------
  // The id invariant of the shared list
  // ---------------------------------------------------------------------------

  /** The item at index `j` has id `"j"`; this makes a parsed id a position key. */
  predicate IdsMatchIndices(list: seq<Item>)
  {
    forall j :: 0 <= j < |list| ==> list[j].id == IntToString(j)
  }

  /** Under the id invariant, each item's parsed id is its index and no two positions hold equal items. */
  lemma IdsAreKeys(list: seq<Item>, i: nat, j: nat)
    requires IdsMatchIndices(list)
    requires i < |list| && j < |list|
    ensures ParseInt(list[i].id) == Some(i)
    ensures i != j ==> list[i] != list[j]
  {
    ParseIntOfIntToString(i);
    if list[i] == list[j] {
      IntToStringInjective(i, j);
    }
  }

  // ---------------------------------------------------------------------------
  // ItemGenerator.getRemoteData
  // ---------------------------------------------------------------------------

  /** The item the generator produces for absolute position `k`. */
  function RemoteItem(k: int): Item
  {
    Item(IntToString(k), "remote data" + IntToString(k), "desc")
  }

  /** The batch a fetch starting at `start` yields, position by position. */
  function RemoteBatch(start: int): seq<Item>
  {
    seq(BatchSize, i => RemoteItem(start + i))
  }

  /** `getRemoteData(startIndex)`: fills a fresh list with 21 generated items in a loop. */
  method GetRemoteData(startIndex: int) returns (items: seq<Item>)
    ensures items == RemoteBatch(startIndex)
  {
    items := [];
    for i := 0 to BatchSize
      invariant |items| == i
      invariant forall k :: 0 <= k < i ==> items[k] == RemoteItem(startIndex + k)
    {
      items := items + [Item(IntToString(startIndex + i), "remote data" + IntToString(startIndex + i), "desc")];
    }
  }

  /**
   * A batch has 21 items: item `k` has an id parsing to `start + k`, the name
   * "remote data" followed by that id and the description "desc"; so the ids
   * strictly increase and no two items are equal.
   */
  lemma RemoteBatchShape(start: int)
    ensures |RemoteBatch(start)| == 21
    ensures forall k :: 0 <= k < BatchSize ==>
              ParseInt(RemoteBatch(start)[k].id) == Some(start + k)
              && RemoteBatch(start)[k].name == "remote data" + RemoteBatch(start)[k].id
              && RemoteBatch(start)[k].desc == "desc"
    ensures forall i, j :: 0 <= i < j < BatchSize ==> RemoteBatch(start)[i] != RemoteBatch(start)[j]
  {
    forall k | 0 <= k < BatchSize
      ensures ParseInt(RemoteBatch(start)[k].id) == Some(start + k)
              && RemoteBatch(start)[k].name == "remote data" + RemoteBatch(start)[k].id
              && RemoteBatch(start)[k].desc == "desc"
    {
      assert RemoteBatch(start)[k] == RemoteItem(start + k);
      ParseIntOfIntToString(start + k);
    }
    forall i, j | 0 <= i < j < BatchSize
      ensures RemoteBatch(start)[i] != RemoteBatch(start)[j]
    {
      assert ParseInt(RemoteBatch(start)[i].id) != ParseInt(RemoteBatch(start)[j].id);
    }
  }

  /** Appending the batch generated at the current size keeps every id equal to its index. */
  lemma AppendBatchKeepsIds(list: seq<Item>)
    requires IdsMatchIndices(list)
    ensures IdsMatchIndices(list + RemoteBatch(|list|))
  {
    var grown := list + RemoteBatch(|list|);
    forall j | 0 <= j < |grown|
      ensures grown[j].id == IntToString(j)
    {
      if j >= |list| {
        assert grown[j] == RemoteItem(|list| + (j - |list|));
      }
    }
  }
}
