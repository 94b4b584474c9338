/** The demonstration widgets (src/components/ModernFeatures.tsx): the
    string reversal of the deferred-value demo and the item list of the
    transition demo. */
module ModernFeatures {
  import opened Common

  /** `value.split('').reverse().join('')` */
  function Reverse(s: string): (r: string)
    ensures |r| == |s|
    decreases |s|
  {
    if s == [] then [] else Reverse(s[1..]) + [s[0]]
  }

  /** Character i of the reversal is character |s| - 1 - i of the input. */
  lemma {:induction false} ReverseAt(s: string, i: int)
    requires 0 <= i < |s|
    ensures Reverse(s)[i] == s[|s| - 1 - i]
    decreases |s|
  {
    if i < |s| - 1 {
      ReverseAt(s[1..], i);
    }
  }

  /** Reversing twice gives the input back. */
  lemma ReverseInvolution(s: string)
    ensures Reverse(Reverse(s)) == s
  {
    var r := Reverse(s);
    forall i | 0 <= i < |s| ensures Reverse(r)[i] == s[i] {
      ReverseAt(r, i);
      ReverseAt(s, |s| - 1 - i);
    }
  }

  /** `\`Item ${n}\`` */
  function ItemLabel(n: nat): string {
    "Item " + NatToString(n)
  }

  /** The numbered items after n additions to an empty list. */
  function Numbered(n: nat): seq<string>
    decreases n
  {
    if n == 0 then [] else Numbered(n - 1) + [ItemLabel(n)]
  }

  /** The list the transition demo shows. */
  class TransitionDemoView {
    var items: seq<string>

    constructor ()
      ensures items == []
    {
      items := [];
    }

    /** `addItem`: appends "Item n+1" where n is the current length. */
    method AddItem()
      modifies this
      ensures items == old(items) + [ItemLabel(|old(items)| + 1)]
    {
      var newItem := ItemLabel(|items| + 1);
      items := items + [newItem];
    }

    /** `clearItems` */
    method ClearItems()
      modifies this
      ensures items == []
    {
      items := [];
    }
  }

  /** Starting from an empty (or just cleared) list, n clicks on "Add Item"
      show "Item 1" to "Item n". */
  method AddMany(v: TransitionDemoView, n: nat)
    modifies v
    ensures v.items == Numbered(n)
  {
    v.ClearItems();
    var k := 0;
    while k < n
      invariant 0 <= k <= n
      invariant v.items == Numbered(k)
    {
      NumberedLength(k);
      v.AddItem();
      k := k + 1;
    }
  }

  lemma {:induction false} NumberedLength(n: nat)
    ensures |Numbered(n)| == n
  {
    if n > 0 {
      NumberedLength(n - 1);
    }
  }

  /** Item i of the list is labelled with i + 1, so no label repeats. */
  lemma {:induction false} NumberedSpec(n: nat)
    ensures |Numbered(n)| == n
    ensures forall i :: 0 <= i < n ==> Numbered(n)[i] == ItemLabel(i + 1)
    ensures NoDup(Numbered(n))
  {
    NumberedLength(n);
    if n > 0 {
      NumberedSpec(n - 1);
      forall i, j | 0 <= i < j < n ensures Numbered(n)[i] != Numbered(n)[j] {
        if Numbered(n)[i] == Numbered(n)[j] {
          assert ItemLabel(i + 1)[5..] == NatToString(i + 1);
          assert ItemLabel(j + 1)[5..] == NatToString(j + 1);
          NatToStringInjective(i + 1, j + 1);
        }
      }
    }
  }
}
