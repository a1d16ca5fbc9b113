/** The community page's photo lightbox: which picture is open, the
    arrows and keys that move through the gallery, and the counter. */
module Comunidad {
  import opened Wrappers

  /** The gallery holds ten pictures. */
  const GALLERY_SIZE: nat := 10

  /** `prevImg` on an open index: from the first picture to the last. */
  function PrevIndex(v: int, n: int): int
  {
    if v == 0 then n - 1 else v - 1
  }

  /** `nextImg` on an open index: from the last picture to the first. */
  function NextIndex(v: int, n: int): int
  {
    if v == n - 1 then 0 else v + 1
  }

  /** On an in-range index both arrows stay in range, each undoes the
      other, and they are steps of one around the circle. */
  lemma ArrowsInverse(v: int, n: int)
    requires 0 <= v < n
    ensures 0 <= PrevIndex(v, n) < n && 0 <= NextIndex(v, n) < n
    ensures NextIndex(PrevIndex(v, n), n) == v && PrevIndex(NextIndex(v, n), n) == v
    ensures NextIndex(v, n) == (v + 1) % n && PrevIndex(v, n) == (v - 1) % n
  {
  }

  function NextTimes(v: int, n: int, k: nat): int
    decreases k
  {
    if k == 0 then v else NextTimes(NextIndex(v, n), n, k - 1)
  }

  /** Up to `n` presses of the right arrow advance that many pictures,
      wrapping past the last one once; `n` presses come back to the
      start. */
  lemma {:induction false} NextTimesWraps(v: int, n: int, k: nat)
    requires 0 <= v < n && k <= n
    ensures NextTimes(v, n, k) == if v + k < n then v + k else v + k - n
    decreases k
  {
    if k > 0 {
      NextTimesWraps(NextIndex(v, n), n, k - 1);
    }
  }

  /** Example only: the whole ten-picture gallery in a row of right-arrow
      presses. The all-inputs statement is `NextTimesWraps`. */
  lemma FullCircle(v: int)
    requires 0 <= v < GALLERY_SIZE
    ensures NextTimes(v, GALLERY_SIZE, GALLERY_SIZE) == v
  {
    NextTimesWraps(v, GALLERY_SIZE, GALLERY_SIZE);
  }

  /** The open picture (`lightboxIndex`, None for `null`) over a gallery of
      `count` pictures. */
  class Lightbox {
    var index: Option<int>
    const count: nat

    ghost predicate Valid()
      reads this
    {
      index.Some? ==> 0 <= index.value < count
    }

    constructor (count: nat)
      ensures Valid() && index.None? && this.count == count
    {
      index := None;
      this.count := count;
    }

    /** A thumbnail of the gallery is clicked. */
    method Open(i: int)
      requires 0 <= i < count
      modifies this
      ensures Valid() && index == Some(i)
    {
      index := Some(i);
    }

    method Close()
      modifies this
      ensures Valid() && index.None?
    {
      index := None;
    }

    /** The left arrow, drawn only while a picture is open. */
    method Prev()
      requires Valid() && index.Some?
      modifies this
      ensures Valid() && index == Some(PrevIndex(old(index).value, count))
    {
      index := Some(if index.value == 0 then count - 1 else index.value - 1);
    }

    /** The right arrow, drawn only while a picture is open. */
    method Next()
      requires Valid() && index.Some?
      modifies this
      ensures Valid() && index == Some(NextIndex(old(index).value, count))
    {
      index := Some(if index.value == count - 1 then 0 else index.value + 1);
    }

    /** The key handler: nothing while closed; Escape closes, the arrow
        keys move. */
    method OnKey(key: string)
      requires Valid()
      modifies this
      ensures Valid()
      ensures old(index).None? ==> index.None?
      ensures old(index).Some? && key == "Escape" ==> index.None?
      ensures old(index).Some? && key == "ArrowLeft" ==> index == Some(PrevIndex(old(index).value, count))
      ensures old(index).Some? && key == "ArrowRight" ==> index == Some(NextIndex(old(index).value, count))
      ensures old(index).Some? && key !in {"Escape", "ArrowLeft", "ArrowRight"} ==> index == old(index)
    {
      if index.None? { return; }
      if key == "Escape" { Close(); }
      if key == "ArrowLeft" && index.Some? { Prev(); }
      if key == "ArrowRight" && index.Some? { Next(); }
    }

    /** The counter under the picture: `index + 1` of `count`. */
    function Counter(): (r: (int, nat))
      requires Valid() && index.Some?
      reads this
      ensures r.0 == index.value + 1 && 1 <= r.0 <= r.1 && r.1 == count
    {
      (index.value + 1, count)
    }
  }
}
