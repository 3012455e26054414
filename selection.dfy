/** A row of sibling elements that share one class flag (slider dots, FAQ
    items, filter buttons, category links, story milestones), modelled as one
    boolean per element, in document order. */
module Selection {

  /** Number of elements that carry the flag. */
  function CountActive(flags: seq<bool>): nat {
    if |flags| == 0 then 0
    else CountActive(flags[..|flags| - 1]) + (if flags[|flags| - 1] then 1 else 0)
  }

  /** The row of `n` elements in which only the one at `k` carries the flag;
      none does when `k` is outside `[0, n)`. */
  function OneHot(n: nat, k: int): seq<bool> {
    seq(n, i => i == k)
  }

  /** A one-hot row has exactly one flagged element when `k` is a position
      of the row and none otherwise. */
  lemma {:induction false} CountOneHot(n: nat, k: int)
    ensures CountActive(OneHot(n, k)) == if 0 <= k < n then 1 else 0
  {
    if n > 0 {
      assert OneHot(n, k)[..n - 1] == OneHot(n - 1, k);
      CountOneHot(n - 1, k);
    }
  }

  /** A row with exactly one flagged element is the one-hot row of that
      element. */
  lemma {:induction false} SingleActiveIsOneHot(flags: seq<bool>, k: nat)
    requires k < |flags| && flags[k]
    requires CountActive(flags) == 1
    ensures flags == OneHot(|flags|, k)
    decreases |flags|
  {
    var n := |flags|;
    var init := flags[..n - 1];
    if k == n - 1 {
      assert CountActive(init) == 0;
      forall i | 0 <= i < n - 1 ensures !flags[i] {
        NoneActive(init, i);
      }
    } else {
      assert init[k];
      CountPositive(init, k);
      assert !flags[n - 1];
      SingleActiveIsOneHot(init, k);
    }
  }

  /** In a row with no flagged element, no element is flagged. */
  lemma {:induction false} NoneActive(flags: seq<bool>, i: nat)
    requires CountActive(flags) == 0
    requires i < |flags|
    ensures !flags[i]
    decreases |flags|
  {
    if i < |flags| - 1 {
      NoneActive(flags[..|flags| - 1], i);
    }
  }

  /** A row with a flagged element has a positive count. */
  lemma {:induction false} CountPositive(flags: seq<bool>, i: nat)
    requires i < |flags| && flags[i]
    ensures CountActive(flags) >= 1
    decreases |flags|
  {
    if i < |flags| - 1 {
      CountPositive(flags[..|flags| - 1], i);
    }
  }

  /** The loop `elements.forEach((el, i) => el.classList.toggle(cls, i === k))`
      and its add/remove spelling: afterwards only the element at `k` carries
      the flag. */
  method MarkOnly(flags: seq<bool>, k: int) returns (r: seq<bool>)
    ensures r == OneHot(|flags|, k)
  {
    r := flags;
    var i := 0;
    while i < |r|
      invariant 0 <= i <= |r| == |flags|
      invariant forall j :: 0 <= j < i ==> (r[j] <==> j == k)
    {
      r := r[i := i == k];
      i := i + 1;
    }
  }
}
