/** The cart badge of the page header: how many different products the cart
    holds, and the label shown for that number. */
module Header {
  import opened CartItems

  /** The ids present in the cart, gathered left to right as the reduce
      visits the lines. */
  function DistinctIds(cart: seq<Item>): set<int>
  {
    if cart == [] then {} else DistinctIds(cart[..|cart| - 1]) + {cart[|cart| - 1].id}
  }

  /** An id is counted exactly when some line carries it. */
  lemma {:induction false} DistinctIdsMembers(cart: seq<Item>, x: int)
    ensures x in DistinctIds(cart) <==> HasId(cart, x)
  {
    if cart != [] {
      var init := cart[..|cart| - 1];
      DistinctIdsMembers(init, x);
      if HasId(init, x) {
        var k :| 0 <= k < |init| && init[k].id == x;
        assert cart[k].id == x;
      }
      if HasId(cart, x) && cart[|cart| - 1].id != x {
        var k :| 0 <= k < |cart| && cart[k].id == x;
        assert init[k].id == x;
      }
    }
  }

  /** The count never exceeds the number of lines, and equals it exactly when
      no two lines share an id. */
  lemma {:induction false} DistinctAtMostLength(cart: seq<Item>)
    ensures |DistinctIds(cart)| <= |cart|
    ensures |DistinctIds(cart)| == |cart| <==> UniqueIds(cart)
  {
    if cart != [] {
      var init, last := cart[..|cart| - 1], cart[|cart| - 1];
      DistinctAtMostLength(init);
      DistinctIdsMembers(init, last.id);
      assert UniqueIds(cart) <==> UniqueIds(init) && !HasId(init, last.id) by {
        if UniqueIds(cart) {
          forall i, j | 0 <= i < j < |init| ensures init[i].id != init[j].id {
            assert init[i] == cart[i] && init[j] == cart[j];
          }
          forall k | 0 <= k < |init| ensures init[k].id != last.id {
            assert init[k] == cart[k];
          }
        }
        if UniqueIds(init) && !HasId(init, last.id) {
          forall i, j | 0 <= i < j < |cart| ensures cart[i].id != cart[j].id {
            assert cart[i] == init[i];
            if j < |cart| - 1 { assert cart[j] == init[j]; }
          }
        }
      }
    }
  }

  /** Adding a line for an id already in the cart leaves the count as it is. */
  lemma AppendPresent(cart: seq<Item>, x: Item)
    requires HasId(cart, x.id)
    ensures DistinctIds(cart + [x]) == DistinctIds(cart)
  {
    assert (cart + [x])[..|cart|] == cart;
    DistinctIdsMembers(cart, x.id);
  }

  /** Adding a line for a new id raises the count by one. */
  lemma AppendAbsent(cart: seq<Item>, x: Item)
    requires !HasId(cart, x.id)
    ensures |DistinctIds(cart + [x])| == |DistinctIds(cart)| + 1
  {
    assert (cart + [x])[..|cart|] == cart;
    DistinctIdsMembers(cart, x.id);
  }

  /** `cartSize`: the reduce over the cart with a dictionary of ids seen so
      far and a running total, starting from an empty dictionary and 0. */
  method CartSize(cart: seq<Item>) returns (total: nat)
    ensures total == |DistinctIds(cart)|
    ensures total <= |cart|
    ensures cart == [] ==> total == 0
  {
    var productInCart: map<int, bool> := map[];
    total := 0;
    var i := 0;
    while i < |cart|
      invariant 0 <= i <= |cart|
      invariant productInCart.Keys == DistinctIds(cart[..i])
      invariant forall id :: id in productInCart ==> productInCart[id]
      invariant total == |productInCart.Keys|
    {
      var item := cart[i];
      if !(item.id in productInCart && productInCart[item.id]) {
        productInCart := productInCart[item.id := true];
        total := total + 1;
      }
      assert cart[..i + 1][..i] == cart[..i];
      i := i + 1;
    }
    assert cart[..i] == cart;
    DistinctAtMostLength(cart);
  }

  function Digit(d: nat): char
    requires d < 10
  {
    "0123456789"[d]
  }

  predicate IsDigit(c: char)
  {
    '0' <= c <= '9'
  }

  /** The decimal text of `n`, as a template literal prints a count. */
  function DecimalText(n: nat): (s: string)
    ensures |s| >= 1
    ensures forall i :: 0 <= i < |s| ==> IsDigit(s[i])
    ensures n >= 10 ==> s[0] != '0'
    ensures s[0] == '0' ==> s == "0"
  {
    if n < 10 then [Digit(n)] else DecimalText(n / 10) + [Digit(n % 10)]
  }

  /** The number a string of decimal digits denotes. */
  function DecimalValue(s: string): nat
    requires forall i :: 0 <= i < |s| ==> IsDigit(s[i])
  {
    if s == [] then 0
    else
      assert IsDigit(s[|s| - 1]);
      DecimalValue(s[..|s| - 1]) * 10 + (s[|s| - 1] as int - '0' as int)
  }

  lemma {:induction false} DecimalRoundTrip(n: nat)
    ensures DecimalValue(DecimalText(n)) == n
  {
    if n >= 10 {
      var s := DecimalText(n);
      assert s[..|s| - 1] == DecimalText(n / 10);
      DecimalRoundTrip(n / 10);
    }
  }

  /** The badge text: "1 item" for one product, "N itens" for any other count. */
  function Label(size: nat): (r: string)
    ensures |r| >= 6 && IsDigit(r[0])
    ensures r[|r| - 5..] == " item" || r[|r| - 6..] == " itens"
  {
    DecimalText(size) + (if size == 1 then " item" else " itens")
  }

  /** The leading run of digits of a string. */
  function LeadingDigits(s: string): (r: string)
    ensures |r| <= |s| && r == s[..|r|]
    ensures forall i :: 0 <= i < |r| ==> IsDigit(r[i])
  {
    if s == [] || !IsDigit(s[0]) then [] else [s[0]] + LeadingDigits(s[1..])
  }

  /** The count a badge label shows. */
  function LabelCount(text: string): nat
  {
    DecimalValue(LeadingDigits(text))
  }

  lemma {:induction false} LeadingDigitsOfNumber(digits: string, rest: string)
    requires forall i :: 0 <= i < |digits| ==> IsDigit(digits[i])
    requires rest != [] && !IsDigit(rest[0])
    ensures LeadingDigits(digits + rest) == digits
  {
    if digits != [] {
      assert (digits + rest)[1..] == digits[1..] + rest;
      LeadingDigitsOfNumber(digits[1..], rest);
    }
  }

  /** The label is the count's decimal text, with no leading zero, followed
      by the word and nothing else, and it reads back as the count. */
  lemma LabelShowsCount(size: nat)
    ensures LabelCount(Label(size)) == size
    ensures LeadingDigits(Label(size)) == DecimalText(size)
    ensures Label(size)[|DecimalText(size)|..] == if size == 1 then " item" else " itens"
  {
    LeadingDigitsOfNumber(DecimalText(size), if size == 1 then " item" else " itens");
    DecimalRoundTrip(size);
  }

  /** The singular form appears for a count of one and for no other count,
      zero included. */
  lemma LabelSingular(size: nat)
    ensures Label(size) == "1 item" <==> size == 1
    ensures size != 1 ==> Label(size)[|Label(size)| - 6..] == " itens"
  {
  }
}
