/** The home page (pages/index.js): the category carousel, which shows the
    categories two by two and loops without end by placing a copy of the last
    pair before the first and a copy of the first after the last; the
    "complete your profile" alert; and the category links. */
module Home {
  import opened Common
  import opened Api

  // ---------------------------------------------------------- categories

  /** A category tile (its image is not modelled). */
  datatype Category = Category(id: int, title: string, slug: Option<string>)

  /** The four categories of the store, in display order. */
  const Categories: seq<Category> := [
    Category(0, "PULSEIRAS", Some("pulseiras")),
    Category(1, "ANÉIS", Some("aneis")),
    Category(2, "BRINCOS", Some("brincos")),
    Category(3, "PINGENTES", Some("pingentes"))
  ]

  /** One slide: two neighbouring categories. */
  datatype Pair = Pair(id: int, left: Category, right: Category)

  /** `pairs`: slide i shows category i and the one after it, the last one
      wrapping round to the first. */
  function Pairs(cs: seq<Category>): (ps: seq<Pair>)
    ensures |ps| == |cs|
  {
    seq(|cs|, i requires 0 <= i < |cs| => Pair(i, cs[i], cs[(i + 1) % |cs|]))
  }

  /** The pairs form a cycle through all the categories: each category is
      the left of its own slide and the right of the slide before it, and
      each slide continues where the previous one ended. */
  lemma PairsCycle(cs: seq<Category>, i: int)
    requires 0 <= i < |cs|
    ensures Pairs(cs)[i].left == cs[i]
    ensures Pairs(cs)[(i + |cs| - 1) % |cs|].right == cs[i]
    ensures Pairs(cs)[i].right == Pairs(cs)[(i + 1) % |cs|].left
  {
    var n := |cs|;
    var ps := Pairs(cs);
    WrapAround(i + n - 1, n);
    var j := (i + n - 1) % n;
    WrapAround(j + 1, n);
    WrapAround(i + 1, n);
    assert ps[j].right == cs[(j + 1) % n];
    assert (j + 1) % n == i;
  }

  /** `%` on an index at most one lap past the end. */
  lemma WrapAround(x: int, n: int)
    requires 0 < n && 0 <= x < 2 * n
    ensures x % n == if x < n then x else x - n
  {
    if x >= n {
      assert x == 1 * n + (x - n);
    }
  }

  /** The store's slides: pulseiras-anéis, anéis-brincos, brincos-pingentes
      and pingentes-pulseiras. */
  lemma StorePairs()
    ensures |Pairs(Categories)| == 4
    ensures Pairs(Categories)[3].left == Categories[3]
    ensures Pairs(Categories)[3].right == Categories[0]
    ensures forall i :: 0 <= i < 3 ==> Pairs(Categories)[i].right == Categories[i + 1]
  {
  }

  /** `extendedPairs`: a copy of the last slide, every slide, then a copy of
      the first. */
  function Extended(ps: seq<Pair>): (e: seq<Pair>)
    requires |ps| > 0
    ensures |e| == |ps| + 2
    ensures e[1..|e| - 1] == ps
    ensures e[0] == ps[|ps| - 1] && e[|e| - 1] == ps[0]
  {
    [ps[|ps| - 1]] + ps + [ps[0]]
  }

  /** Where `handleTransitionEnd` puts the index: the copy at the end jumps
      to the first real slide, the copy at the start to the last real one,
      every other index stays. */
  function Snap(i: int, len: int): int {
    if i == len - 1 then 1
    else if i == 0 then len - 2
    else i
  }

  /** The jump cannot be seen: the slide it lands on shows the same pair as
      the copy it left, and it always lands on a real slide. */
  lemma SnapIsInvisible(ps: seq<Pair>, i: int)
    requires |ps| > 0 && 0 <= i < |ps| + 2
    ensures 1 <= Snap(i, |ps| + 2) <= |ps|
    ensures Extended(ps)[Snap(i, |ps| + 2)] == Extended(ps)[i]
  {
    var e := Extended(ps);
    if i == 0 {
      assert e[|ps|] == e[1..|e| - 1][|ps| - 1];
    } else if i == |ps| + 1 {
      assert e[1] == e[1..|e| - 1][0];
    }
  }

  /** The corrected snap: whatever the index the clicks left, the real slide
      showing the pair it points at round the cycle. */
  function SnapCorrigido(i: int, len: int): int
    requires len > 2
  {
    (i - 1) % (len - 2) + 1
  }

  /** The corrected snap always lands on a real slide, on the pair the index
      points at, and agrees with the written snap wherever that one works. */
  lemma SnapCorrigidoLandsOnTheAimedPair(ps: seq<Pair>, i: int)
    requires |ps| > 0
    ensures 1 <= SnapCorrigido(i, |ps| + 2) <= |ps|
    ensures Extended(ps)[SnapCorrigido(i, |ps| + 2)] == ps[(i - 1) % |ps|]
    ensures 0 <= i < |ps| + 2 ==> SnapCorrigido(i, |ps| + 2) == Snap(i, |ps| + 2)
  {
    var n := |ps|;
    var e := Extended(ps);
    var j := SnapCorrigido(i, n + 2);
    assert e[j] == e[1..|e| - 1][j - 1];
    if i == 0 {
      assert -1 == (-1) * n + (n - 1);
    } else if i == n + 1 {
      WrapAround(n, n);
    } else if 0 < i < n + 1 {
      WrapAround(i - 1, n);
    }
  }

  /** Real slide i (1..n) shows pair i-1. A step right then the transition end
      shows the next pair round the cycle, a step left the previous one. */
  lemma StepsFollowTheCycle(ps: seq<Pair>, i: int)
    requires |ps| > 0 && 1 <= i <= |ps|
    ensures Extended(ps)[i] == ps[i - 1]
    ensures Extended(ps)[Snap(i + 1, |ps| + 2)] == ps[i % |ps|]
    ensures Extended(ps)[Snap(i - 1, |ps| + 2)] == ps[(i - 2 + |ps|) % |ps|]
  {
    var n := |ps|;
    var e := Extended(ps);
    WrapAround(i, n);
    WrapAround(i - 2 + n, n);
    assert e[i] == e[1..|e| - 1][i - 1];
    SnapIsInvisible(ps, i + 1);
    SnapIsInvisible(ps, i - 1);
    if i < n {
      assert e[i + 1] == e[1..|e| - 1][i];
    }
    if i > 1 {
      assert e[i - 1] == e[1..|e| - 1][i - 2];
    }
  }

  // -------------------------------------------------------- the carousel

  /** The carousel state: the slides (fixed) and `currentIndex` and
      `isTransitionEnabled`, which the arrows and the transition end update. */
  class Carousel {
    const categories: seq<Category>
    const slides: seq<Pair>
    var currentIndex: int
    var transitionEnabled: bool

    predicate Valid()
      reads this
    {
      |categories| > 0 && slides == Extended(Pairs(categories))
    }

    /** The carousel starts on the first real slide, with animation on. */
    constructor (cs: seq<Category>)
      requires |cs| > 0
      ensures Valid() && categories == cs
      ensures currentIndex == 1 && transitionEnabled
      ensures slides[currentIndex] == Pairs(cs)[0]
    {
      categories := cs;
      slides := Extended(Pairs(cs));
      currentIndex := 1;
      transitionEnabled := true;
      new;
      assert slides[1] == slides[1..|slides| - 1][0];
    }

    /** `moveRight`: animate one slide forward. */
    method MoveRight()
      modifies this
      ensures currentIndex == old(currentIndex) + 1 && transitionEnabled
    {
      transitionEnabled := true;
      currentIndex := currentIndex + 1;
    }

    /** `moveLeft`: animate one slide back. */
    method MoveLeft()
      modifies this
      ensures currentIndex == old(currentIndex) - 1 && transitionEnabled
    {
      transitionEnabled := true;
      currentIndex := currentIndex - 1;
    }

    /** `handleTransitionEnd`: both checks read the index the handler was
        rendered with; a jump turns the animation off so it is not seen. */
    method HandleTransitionEnd()
      requires Valid()
      modifies this
      ensures currentIndex == Snap(old(currentIndex), |slides|)
      ensures transitionEnabled == (if old(currentIndex) == |slides| - 1 || old(currentIndex) == 0
                                    then false else old(transitionEnabled))
      ensures 0 <= old(currentIndex) < |slides| ==>
        1 <= currentIndex <= |slides| - 2 && slides[currentIndex] == slides[old(currentIndex)]
    {
      var index := currentIndex;
      if index == |slides| - 1 {
        transitionEnabled := false;
        currentIndex := 1;
      }
      if index == 0 {
        transitionEnabled := false;
        currentIndex := |slides| - 2;
      }
      if 0 <= index < |slides| {
        SnapIsInvisible(Pairs(categories), index);
      }
    }

    /** The corrected `handleTransitionEnd`: any index outside the real
        slides, however far the clicks took it, is brought back to the real
        slide showing the same pair, with the animation off for the jump. */
    method HandleTransitionEndCorrigido()
      requires Valid()
      modifies this
      ensures currentIndex == SnapCorrigido(old(currentIndex), |slides|)
      ensures transitionEnabled == (if currentIndex != old(currentIndex) then false else old(transitionEnabled))
      ensures 1 <= currentIndex <= |slides| - 2
      ensures slides[currentIndex] == Pairs(categories)[(old(currentIndex) - 1) % |categories|]
    {
      var index := currentIndex;
      var target := SnapCorrigido(index, |slides|);
      if target != index {
        transitionEnabled := false;
        currentIndex := target;
      }
      SnapCorrigidoLandsOnTheAimedPair(Pairs(categories), index);
    }
  }

  /** Two clicks to the right from the last real slide before the animation
      ends: the one transition end sees the index two past that slide, and as
      written leaves it there, beyond the last slide. */
  method DoubleStepLeavesTheSlides() {
    var c := new Carousel(Categories);
    c.MoveRight();
    c.MoveRight();
    c.MoveRight();
    assert c.currentIndex == |Categories|;
    c.MoveRight();
    c.MoveRight();
    c.HandleTransitionEnd();
    assert c.currentIndex == |c.slides| == 6;
  }

  /** The same clicks with the corrected handler end on the second pair,
      two steps round the cycle from the last one. */
  method DoubleStepWithCorrectedSnap() {
    var c := new Carousel(Categories);
    c.MoveRight();
    c.MoveRight();
    c.MoveRight();
    c.MoveRight();
    c.MoveRight();
    c.HandleTransitionEndCorrigido();
    assert c.currentIndex == 2 && c.slides[2] == Pairs(Categories)[1];
  }

  // ------------------------------------------------------ profile alert

  /** The fields of the logged-in user the alert looks at. */
  datatype Profile = Profile(telefone: Option<string>, endereco: Option<string>, cep: Option<string>)

  /** `!x || x.trim() === ''`. */
  predicate Missing(x: Option<string>) {
    !Truthy(x) || Trim(x.value) == ""
  }

  /** `verificarCadastro`: given the user lookup (None when it returns no
      user), whether the alert is shown. Any failure hides it. */
  function ShowProfileAlert(lookup: Outcome<Option<Profile>>): bool {
    match lookup
    case Failed(_) => false
    case Ok(None) => false
    case Ok(Some(u)) => Missing(u.telefone) || Missing(u.endereco) || Missing(u.cep)
  }

  /** Absent, or made only of whitespace. */
  predicate Blank(x: Option<string>) {
    x.None? || AllWhitespace(x.value)
  }

  /** The alert is shown exactly when a user was found and one of telephone,
      address and CEP is absent or blank. */
  lemma ProfileAlertIff(lookup: Outcome<Option<Profile>>)
    ensures ShowProfileAlert(lookup) <==>
      lookup.Ok? && lookup.value.Some? &&
      (Blank(lookup.value.value.telefone) || Blank(lookup.value.value.endereco) || Blank(lookup.value.value.cep))
  {
    if lookup.Ok? && lookup.value.Some? {
      var u := lookup.value.value;
      MissingIffBlank(u.telefone);
      MissingIffBlank(u.endereco);
      MissingIffBlank(u.cep);
    }
  }

  lemma MissingIffBlank(x: Option<string>)
    ensures Missing(x) <==> Blank(x)
  {
    if x.Some? {
      TrimEmptyIffBlank(x.value);
    }
  }

  // ------------------------------------------------------ category links

  /** `handleCategoryClick`: the route pushed, None when the category has no slug. */
  function CategoryRoute(c: Category): (route: Option<string>)
    ensures route.None? <==> !Truthy(c.slug)
    ensures route.Some? ==>
      |route.value| > 11 && route.value[..11] == "/categoria/" && route.value[11..] == c.slug.value
  {
    if !Truthy(c.slug) then None else Some("/categoria/" + c.slug.value)
  }
}
