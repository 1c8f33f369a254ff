/** The flag quiz (src/countryQuiz.jsx): a timed state machine over the game
    status, the score, the streak and two countdowns, together with the
    question builder. The random draws are parameters: `pick` is the index
    `Math.floor(Math.random() * countries.length)` and `perm` the order the
    randomised sort leaves the options in. */
module FlagQuiz {
  import opened CountryData
  import opened JsArrays

  datatype Status = NotStarted | Playing | Ended

  /** The display projection of a country: `{ name, flag }`. */
  datatype QuizOption = QuizOption(name: string, flag: string)

  /** The transient message line; the text is abstracted to what it carries. */
  datatype Message =
    | NoMessage
    | Correct
    | Wrong(answer: string)
    | TimesUp(answer: string)
    | GameOver(finalScore: int)

  const GameSeconds: int := 30
  const DistractorCount: int := 3

  // ---------------------------------------------------------------------
  // Difficulty table
  // ---------------------------------------------------------------------

  /** `getDifficultyTimer`: seconds per question for a difficulty. */
  function DifficultyTimer(difficulty: string): (seconds: int)
    ensures difficulty == "easy" ==> seconds == 15
    ensures difficulty == "medium" ==> seconds == 10
    ensures difficulty == "hard" ==> seconds == 5
    ensures difficulty != "easy" && difficulty != "medium" && difficulty != "hard" ==> seconds == 10
    ensures 5 <= seconds <= 15
  {
    if difficulty == "easy" then 15
    else if difficulty == "medium" then 10
    else if difficulty == "hard" then 5
    else 10
  }

  // ---------------------------------------------------------------------
  // Question builder
  // ---------------------------------------------------------------------

  function ToOption(c: Country): QuizOption
  {
    QuizOption(c.commonName, c.flagPng)
  }

  function DiffersFrom(code: string): Country -> bool
  {
    (c: Country) => c.cca3 != code
  }

  /** `countries.filter((c) => c.cca3 !== code)` */
  function OtherCoded(countries: seq<Country>, code: string): seq<Country>
  {
    Filter(DiffersFrom(code), countries)
  }

  /** `... .slice(0, 3)`: the distractor countries. */
  function Distractors(countries: seq<Country>, code: string): seq<Country>
  {
    Slice(OtherCoded(countries, code), 0, DistractorCount)
  }

  /** `[correctOption, ...incorrectOptions]`, before the reordering. */
  function BaseOptions(countries: seq<Country>, chosen: Country): seq<QuizOption>
  {
    [ToOption(chosen)] + Map(ToOption, Distractors(countries, chosen.cca3))
  }

  /** `perm` lists each index below `n` exactly once. */
  predicate IsPermutation(perm: seq<nat>, n: nat)
  {
    multiset(perm) == multiset(Range(n))
  }

  /** The reordering the randomised sort produces, given as the index of the
      original position that ends up in each slot. */
  function Shuffle<T>(items: seq<T>, perm: seq<nat>): (r: seq<T>)
    requires forall i :: 0 <= i < |perm| ==> perm[i] < |items|
    ensures |r| == |perm|
    ensures forall i :: 0 <= i < |perm| ==> r[i] == items[perm[i]]
  {
    seq(|perm|, i requires 0 <= i < |perm| => items[perm[i]])
  }

  datatype Question = Question(correct: QuizOption, options: seq<QuizOption>)

  /** The random draws a question needs: an index into a non-empty list and
      a reordering of the options built from it. Any draw is usable when the
      list is empty, because the builder then fails before using it. */
  predicate ValidDraw(countries: seq<Country>, pick: nat, perm: seq<nat>)
  {
    |countries| == 0 ||
    (pick < |countries| && IsPermutation(perm, |BaseOptions(countries, countries[pick])|))
  }

  /** `generateQuestion`. On an empty list `countries[0]` is undefined and
      reading its name throws, which is `None` here. */
  function NewQuestion(countries: seq<Country>, pick: nat, perm: seq<nat>): (q: Option<Question>)
    requires ValidDraw(countries, pick, perm)
    ensures q.None? <==> |countries| == 0
  {
    if |countries| == 0 then None
    else
      var chosen := countries[pick];
      var base := BaseOptions(countries, chosen);
      PermutationBounds(perm, |base|);
      Some(Question(ToOption(chosen), Shuffle(base, perm)))
  }

  lemma PermutationBounds(perm: seq<nat>, n: nat)
    requires IsPermutation(perm, n)
    ensures |perm| == n
    ensures forall i :: 0 <= i < |perm| ==> perm[i] < n
  {
    assert |multiset(perm)| == |perm|;
    assert |multiset(Range(n))| == n;
    forall i | 0 <= i < |perm| ensures perm[i] < n {
      assert perm[i] in multiset(perm);
      assert perm[i] in Range(n);
    }
  }

  /** Removing position k keeps the other elements and drops one copy of q[k]. */
  lemma RemoveAt(q: seq<nat>, k: nat)
    requires k < |q|
    ensures var rest := q[..k] + q[k + 1..];
      |rest| == |q| - 1
      && (forall i :: 0 <= i < |rest| ==> rest[i] == if i < k then q[i] else q[i + 1])
      && multiset(rest) == multiset(q) - multiset{q[k]}
  {
    assert q == q[..k] + [q[k]] + q[k + 1..];
    assert multiset(q) == multiset(q[..k]) + multiset{q[k]} + multiset(q[k + 1..]);
  }

  /** Selecting by a concatenation of index lists concatenates the selections. */
  lemma ShuffleConcat<T>(items: seq<T>, a: seq<nat>, b: seq<nat>)
    requires forall i :: 0 <= i < |a| ==> a[i] < |items|
    requires forall i :: 0 <= i < |b| ==> b[i] < |items|
    ensures forall i :: 0 <= i < |a + b| ==> (a + b)[i] < |items|
    ensures Shuffle(items, a + b) == Shuffle(items, a) + Shuffle(items, b)
  {
    assert forall i :: 0 <= i < |a + b| ==> (a + b)[i] == if i < |a| then a[i] else b[i - |a|];
    var lhs, rhs := Shuffle(items, a + b), Shuffle(items, a) + Shuffle(items, b);
    assert |lhs| == |rhs|;
    forall i | 0 <= i < |lhs| ensures lhs[i] == rhs[i] {
      if i < |a| {
        assert rhs[i] == Shuffle(items, a)[i];
      } else {
        assert rhs[i] == Shuffle(items, b)[i - |a|];
      }
    }
  }

  /** Taking one index out of an index list takes its item out of the
      selected items. */
  lemma ShuffleRemoveAt<T>(items: seq<T>, q: seq<nat>, k: nat)
    requires forall i :: 0 <= i < |q| ==> q[i] < |items|
    requires k < |q|
    ensures var rest := q[..k] + q[k + 1..];
      (forall i :: 0 <= i < |rest| ==> rest[i] < |items|)
      && multiset(rest) == multiset(q) - multiset{q[k]}
      && multiset(Shuffle(items, q)) == multiset(Shuffle(items, rest)) + multiset{items[q[k]]}
  {
    var front, mid, back := q[..k], [q[k]], q[k + 1..];
    RemoveAt(q, k);
    assert q == front + (mid + back);
    ShuffleConcat(items, mid, back);
    ShuffleConcat(items, front, mid + back);
    ShuffleConcat(items, front, back);
    var sf, sb := Shuffle(items, front), Shuffle(items, back);
    assert Shuffle(items, mid) == [items[q[k]]];
    assert multiset(Shuffle(items, q)) == multiset(sf) + multiset{items[q[k]]} + multiset(sb);
    assert multiset(Shuffle(items, front + back)) == multiset(sf) + multiset(sb);
  }

  lemma ShuffleCons<T>(items: seq<T>, p: seq<nat>)
    requires forall i :: 0 <= i < |p| ==> p[i] < |items|
    requires p != []
    ensures multiset(p[1..]) == multiset(p) - multiset{p[0]}
    ensures multiset(Shuffle(items, p)) == multiset(Shuffle(items, p[1..])) + multiset{items[p[0]]}
  {
    assert p == [p[0]] + p[1..];
    assert Shuffle(items, p) == [items[p[0]]] + Shuffle(items, p[1..]);
  }

  /** Two index lists with the same multiset select the same multiset of items. */
  lemma {:induction false} ShuffleRespectsMultiset<T>(items: seq<T>, p: seq<nat>, q: seq<nat>)
    requires forall i :: 0 <= i < |p| ==> p[i] < |items|
    requires forall i :: 0 <= i < |q| ==> q[i] < |items|
    requires multiset(p) == multiset(q)
    ensures multiset(Shuffle(items, p)) == multiset(Shuffle(items, q))
    decreases |p|
  {
    if p == [] {
      assert |q| == |multiset(q)| == 0;
    } else {
      assert p[0] in multiset(q);
      var k :| 0 <= k < |q| && q[k] == p[0];
      ShuffleRemoveAt(items, q, k);
      ShuffleCons(items, p);
      ShuffleRespectsMultiset(items, p[1..], q[..k] + q[k + 1..]);
    }
  }

  /** The reordered options are a permutation of the original ones. */
  lemma ShufflePermutes<T>(items: seq<T>, perm: seq<nat>)
    requires IsPermutation(perm, |items|)
    ensures forall i :: 0 <= i < |perm| ==> perm[i] < |items|
    ensures multiset(Shuffle(items, perm)) == multiset(items)
  {
    PermutationBounds(perm, |items|);
    var id := Range(|items|);
    ShuffleRespectsMultiset(items, perm, id);
    assert Shuffle(items, id) == items;
  }

  /** The distractors are the first (up to) three countries, in list order,
      whose code differs from the chosen one; none shares that code. */
  lemma DistractorsShape(countries: seq<Country>, code: string)
    ensures var others := OtherCoded(countries, code);
      var d := Distractors(countries, code);
      |d| == Min(DistractorCount, |others|) && d == others[..|d|]
      && IsSubsequence(others, countries)
      && (forall c :: c in others <==> c in countries && c.cca3 != code)
      && (forall c :: multiset(others)[c] == if c.cca3 != code then multiset(countries)[c] else 0)
      && (forall c :: c in d ==> c in countries && c.cca3 != code)
  {
    var others := OtherCoded(countries, code);
    SliceNonNegative(others, 0, DistractorCount);
    FilterIsSubsequence(DiffersFrom(code), countries);
    forall c ensures c in others <==> c in countries && c.cca3 != code {
      FilterMembership(DiffersFrom(code), countries, c);
    }
    forall c ensures multiset(others)[c] == if c.cca3 != code then multiset(countries)[c] else 0 {
      FilterCount(DiffersFrom(code), countries, c);
    }
  }

  /** The codes of the other-coded countries are all codes but the chosen one. */
  lemma OtherCodes(countries: seq<Country>, code: string)
    ensures Codes(OtherCoded(countries, code)) == Codes(countries) - {code}
  {
    var others := OtherCoded(countries, code);
    forall x | x in Codes(countries) - {code} ensures x in Codes(others) {
      var c :| c in countries && c.cca3 == x;
      FilterMembership(DiffersFrom(code), countries, c);
    }
    forall x | x in Codes(others) ensures x in Codes(countries) - {code} {
      var c :| c in others && c.cca3 == x;
      FilterMembership(DiffersFrom(code), countries, c);
    }
  }

  lemma RemoveOneBound(all: set<string>, code: string)
    ensures |all - {code}| >= |all| - 1
  {
    if code in all {
      assert all == (all - {code}) + {code};
    } else {
      assert all - {code} == all;
    }
  }

  /** With at least four distinct codes in the list there are always three
      countries of another code than the chosen one. */
  lemma EnoughOthers(countries: seq<Country>, code: string)
    requires |Codes(countries)| >= 4
    ensures |OtherCoded(countries, code)| >= DistractorCount
  {
    OtherCodes(countries, code);
    RemoveOneBound(Codes(countries), code);
    CodesBound(OtherCoded(countries, code));
  }

  /** generateQuestion's result: the designated answer is the picked
      country, the options are a reordering of [answer, ...distractors] and
      so contain the answer, and there are four of them once the list holds
      four distinct codes. */
  lemma QuestionShape(countries: seq<Country>, pick: nat, perm: seq<nat>)
    requires |countries| > 0 && ValidDraw(countries, pick, perm)
    ensures var q := NewQuestion(countries, pick, perm);
      var chosen := countries[pick];
      q.Some? && q.value.correct == ToOption(chosen)
      && multiset(q.value.options) == multiset(BaseOptions(countries, chosen))
      && q.value.correct in q.value.options
      && |q.value.options| == 1 + Min(DistractorCount, |OtherCoded(countries, chosen.cca3)|)
      && (|Codes(countries)| >= 4 ==> |q.value.options| == 4)
  {
    var chosen := countries[pick];
    var base := BaseOptions(countries, chosen);
    ShufflePermutes(base, perm);
    var options := NewQuestion(countries, pick, perm).value.options;
    assert base[0] in multiset(base);
    assert ToOption(chosen) in multiset(options);
    DistractorsShape(countries, chosen.cca3);
    assert |options| == |multiset(options)| == |multiset(base)| == |base|;
    if |Codes(countries)| >= 4 {
      EnoughOthers(countries, chosen.cca3);
    }
  }

  /** No two positions of the list carry the same common name. */
  predicate DistinctCommonNames(countries: seq<Country>)
  {
    forall i, j :: 0 <= i < |countries| && 0 <= j < |countries| && i != j ==>
      countries[i].commonName != countries[j].commonName
  }

  /** No two options carry the same name. */
  predicate DistinctNames(options: seq<QuizOption>)
  {
    forall i, j :: 0 <= i < |options| && 0 <= j < |options| && i != j ==>
      options[i].name != options[j].name
  }

  /** Filtering by code keeps the common names pairwise distinct. */
  lemma {:induction false} OtherCodedDistinct(countries: seq<Country>, code: string)
    requires DistinctCommonNames(countries)
    ensures DistinctCommonNames(OtherCoded(countries, code))
  {
    if countries != [] {
      var tail := countries[1..];
      assert DistinctCommonNames(tail) by {
        forall i, j | 0 <= i < |tail| && 0 <= j < |tail| && i != j
          ensures tail[i].commonName != tail[j].commonName
        {
          assert tail[i] == countries[i + 1] && tail[j] == countries[j + 1];
        }
      }
      OtherCodedDistinct(tail, code);
      var rest := OtherCoded(tail, code);
      if countries[0].cca3 != code {
        var all := OtherCoded(countries, code);
        assert all == [countries[0]] + rest;
        forall k | 0 <= k < |rest| ensures rest[k].commonName != countries[0].commonName {
          assert rest[k] in rest;
          FilterMembership(DiffersFrom(code), tail, rest[k]);
          var m :| 0 <= m < |tail| && tail[m] == rest[k];
          assert tail[m] == countries[m + 1];
        }
        forall i, j | 0 <= i < |all| && 0 <= j < |all| && i != j
          ensures all[i].commonName != all[j].commonName
        {
          if i > 0 && j > 0 {
            assert all[i] == rest[i - 1] && all[j] == rest[j - 1];
          } else if i == 0 {
            assert all[j] == rest[j - 1];
          } else {
            assert all[i] == rest[i - 1];
          }
        }
      } else {
        assert OtherCoded(countries, code) == rest;
      }
    }
  }

  /** With pairwise distinct common names, the distractors carry pairwise
      distinct names, all different from the picked country's. */
  lemma DistractorsDistinct(countries: seq<Country>, pick: nat)
    requires pick < |countries| && DistinctCommonNames(countries)
    ensures var d := Distractors(countries, countries[pick].cca3);
      DistinctCommonNames(d)
      && forall k :: 0 <= k < |d| ==> d[k].commonName != countries[pick].commonName
  {
    var chosen := countries[pick];
    var others := OtherCoded(countries, chosen.cca3);
    var d := Distractors(countries, chosen.cca3);
    DistractorsShape(countries, chosen.cca3);
    OtherCodedDistinct(countries, chosen.cca3);
    assert forall k :: 0 <= k < |d| ==> d[k] == others[k];
    forall k | 0 <= k < |d| ensures d[k].commonName != chosen.commonName {
      assert d[k] in d;
      var m :| 0 <= m < |countries| && countries[m] == d[k];
      assert m != pick;
    }
  }

  lemma MappedDistinct(cs: seq<Country>)
    requires DistinctCommonNames(cs)
    ensures DistinctNames(Map(ToOption, cs))
  {
  }

  lemma ConsDistinct(o: QuizOption, rest: seq<QuizOption>)
    requires DistinctNames(rest)
    requires forall k :: 0 <= k < |rest| ==> rest[k].name != o.name
    ensures DistinctNames([o] + rest)
  {
    var all := [o] + rest;
    forall i, j | 0 <= i < |all| && 0 <= j < |all| && i != j
      ensures all[i].name != all[j].name
    {
      if i > 0 && j > 0 {
        assert all[i] == rest[i - 1] && all[j] == rest[j - 1];
      } else if i == 0 {
        assert all[j] == rest[j - 1];
      } else {
        assert all[i] == rest[i - 1];
      }
    }
  }

  /** With pairwise distinct common names, the options before the
      reordering carry pairwise distinct names. */
  lemma BaseOptionsDistinct(countries: seq<Country>, pick: nat)
    requires pick < |countries| && DistinctCommonNames(countries)
    ensures DistinctNames(BaseOptions(countries, countries[pick]))
  {
    var d := Distractors(countries, countries[pick].cca3);
    DistractorsDistinct(countries, pick);
    MappedDistinct(d);
    ConsDistinct(ToOption(countries[pick]), Map(ToOption, d));
  }

  /** A value found at two positions occurs at least twice. */
  lemma TwoPositions<T>(xs: seq<T>, i: nat, j: nat)
    requires i < j < |xs| && xs[i] == xs[j]
    ensures multiset(xs)[xs[i]] >= 2
  {
    assert xs == xs[..j] + [xs[j]] + xs[j + 1..];
    assert xs[..j][i] == xs[i];
    assert multiset(xs[..j])[xs[i]] >= 1;
  }

  /** A value that occurs at least twice is found at two positions. */
  lemma TwoCopies<T>(xs: seq<T>, x: T)
    requires multiset(xs)[x] >= 2
    ensures exists p, q :: 0 <= p < q < |xs| && xs[p] == x && xs[q] == x
  {
    assert x in xs;
    var p :| 0 <= p < |xs| && xs[p] == x;
    var front, back := xs[..p], xs[p + 1..];
    assert xs == front + [x] + back;
    assert multiset(front + back)[x] >= 1;
    if x in front {
      var r :| 0 <= r < |front| && front[r] == x;
      assert xs[r] == x;
    } else {
      assert x in back;
      var r :| 0 <= r < |back| && back[r] == x;
      assert xs[p + 1 + r] == x;
    }
  }

  /** Reordering keeps the names pairwise distinct. */
  lemma DistinctNamesPermutation(a: seq<QuizOption>, b: seq<QuizOption>)
    requires multiset(a) == multiset(b) && DistinctNames(b)
    ensures DistinctNames(a)
  {
    forall i, j | 0 <= i < |a| && 0 <= j < |a| && i != j
      ensures a[i].name != a[j].name
    {
      assert a[i] in multiset(b) && a[j] in multiset(b);
      var p :| 0 <= p < |b| && b[p] == a[i];
      var q :| 0 <= q < |b| && b[q] == a[j];
      if p == q {
        if i < j { TwoPositions(a, i, j); } else { TwoPositions(a, j, i); }
        TwoCopies(b, a[i]);
      }
    }
  }

  /** The code compares answers by name, and the option buttons are keyed
      by name. When no two countries share a common name, no two options do
      either, and the answer is the only option with its name. */
  lemma QuestionNamesDistinct(countries: seq<Country>, pick: nat, perm: seq<nat>)
    requires |countries| > 0 && ValidDraw(countries, pick, perm) && DistinctCommonNames(countries)
    ensures var q := NewQuestion(countries, pick, perm).value;
      DistinctNames(q.options)
      && (forall o :: o in q.options ==> (o.name == q.correct.name <==> o == q.correct))
  {
    var q := NewQuestion(countries, pick, perm).value;
    QuestionShape(countries, pick, perm);
    BaseOptionsDistinct(countries, pick);
    DistinctNamesPermutation(q.options, BaseOptions(countries, countries[pick]));
    forall o | o in q.options ensures o.name == q.correct.name <==> o == q.correct {
      var i :| 0 <= i < |q.options| && q.options[i] == o;
      var j :| 0 <= j < |q.options| && q.options[j] == q.correct;
      if o.name == q.correct.name {
        assert i == j;
      }
    }
  }

  // ---------------------------------------------------------------------
  // Component state and its transitions
  // ---------------------------------------------------------------------

  /** The component's state fields. `pending` holds the deferred
      continuations scheduled by answers and timeouts, oldest first, each as
      the difficulty its closure captured. `unmounted` records that an error
      thrown inside an effect has reached the root, which has no error
      boundary, so React has removed the whole tree. */
  datatype QuizState = QuizState(
    status: Status,
    score: int,
    streak: int,
    questionTimeLeft: int,
    gameTimeLeft: int,
    difficulty: string,
    current: Option<QuizOption>,
    options: seq<QuizOption>,
    message: Message,
    pending: seq<string>,
    unmounted: bool)

  /** The `useState` initial values. */
  function Initial(): QuizState
  {
    QuizState(NotStarted, 0, 0, 10, GameSeconds, "medium", None, [], NoMessage, [], false)
  }

  /** The state facts every reachable state satisfies. */
  predicate Inv(s: QuizState, countries: seq<Country>)
  {
    && 0 <= s.questionTimeLeft <= DifficultyTimer(s.difficulty)
    && 0 <= s.gameTimeLeft <= GameSeconds
    && (s.status == Ended <==> s.gameTimeLeft == 0)
    && 0 <= s.streak <= s.score
    && (forall i :: 0 <= i < |s.pending| ==> s.pending[i] == s.difficulty)
    && (s.current.Some? ==> s.current.value in s.options && |countries| > 0)
    && (|s.pending| > 0 ==> s.current.Some?)
    && (s.status == NotStarted ==> s.pending == [] && s.questionTimeLeft > 0)
    && (s.status != NotStarted && |countries| > 0 ==> s.current.Some?)
    && (s.unmounted ==> s.current.None? && s.pending == [])
  }

  function WithQuestion(s: QuizState, q: Option<Question>): QuizState
  {
    match q
    case None => s
    case Some(question) => s.(current := Some(question.correct), options := question.options)
  }

  /** `startQuiz(difficulty)` */
  function AfterStart(s: QuizState, countries: seq<Country>, difficulty: string, pick: nat, perm: seq<nat>): QuizState
    requires ValidDraw(countries, pick, perm)
  {
    var reset := s.(difficulty := difficulty, status := Playing, score := 0, streak := 0,
                    gameTimeLeft := GameSeconds, questionTimeLeft := DifficultyTimer(difficulty));
    WithQuestion(reset, NewQuestion(countries, pick, perm))
  }

  /** The "Play Again" button: `startQuiz(difficulty)` with the stored difficulty. */
  function AfterPlayAgain(s: QuizState, countries: seq<Country>, pick: nat, perm: seq<nat>): QuizState
    requires ValidDraw(countries, pick, perm)
  {
    AfterStart(s, countries, s.difficulty, pick, perm)
  }

  /** One run of the question interval's callback. */
  function AfterQuestionTick(s: QuizState): QuizState
  {
    if s.status == Playing && s.questionTimeLeft > 0 then s.(questionTimeLeft := s.questionTimeLeft - 1) else s
  }

  /** `endGame` */
  function AfterEndGame(s: QuizState): QuizState
  {
    s.(status := Ended, message := GameOver(s.score))
  }

  /** One run of the game interval's callback, followed by the effect's
      expiry branch once the clock has reached zero. */
  function AfterGameTick(s: QuizState): QuizState
  {
    if s.status == Playing && s.gameTimeLeft > 0 then
      var t := s.(gameTimeLeft := s.gameTimeLeft - 1);
      if t.gameTimeLeft == 0 then AfterEndGame(t) else t
    else s
  }

  /** `handleAnswer(selected)`; the continuation it schedules is appended to `pending`. */
  function AfterAnswer(s: QuizState, selected: QuizOption): QuizState
    requires s.current.Some?
  {
    var answer := s.current.value.name;
    var judged :=
      if selected.name == answer then s.(message := Correct, score := s.score + 1, streak := s.streak + 1)
      else s.(message := Wrong(answer), streak := 0);
    judged.(pending := s.pending + [s.difficulty])
  }

  /** `handleTimeOut`. With no current country, reading its name throws
      before anything is set; the handler runs inside the question effect,
      so the error unmounts the component tree. */
  function AfterTimeOut(s: QuizState): QuizState
  {
    match s.current
    case None => s.(unmounted := true)
    case Some(c) => s.(message := TimesUp(c.name), streak := 0, pending := s.pending + [s.difficulty])
  }

  /** The oldest deferred continuation fires: clear the message, build a new
      question, reset the question clock for the captured difficulty. No
      status is consulted. If building throws, the clock is not reset. */
  function AfterContinuation(s: QuizState, countries: seq<Country>, pick: nat, perm: seq<nat>): QuizState
    requires |s.pending| > 0 && ValidDraw(countries, pick, perm)
  {
    var captured := s.pending[0];
    var cleared := s.(message := NoMessage, pending := s.pending[1..]);
    match NewQuestion(countries, pick, perm)
    case None => cleared
    case Some(q) => WithQuestion(cleared, Some(q)).(questionTimeLeft := DifficultyTimer(captured))
  }

  // ---------------------------------------------------------------------
  // What can happen to the component
  // ---------------------------------------------------------------------

  datatype Event =
    | ChooseDifficulty(difficulty: string, pick: nat, perm: seq<nat>)
    | ClickPlayAgain(pick: nat, perm: seq<nat>)
    | QuestionSecond
    | GameSecond
    | ClickOption(selected: QuizOption)
    | QuestionExpired
    | DelayElapsed(pick: nat, perm: seq<nat>)

  /** When each event can occur: the difficulty buttons are shown before the
      first game, "Play Again" after a game, the option buttons while playing
      with a current country; the question effect calls the timeout handler
      when its clock is zero; a continuation fires only if one is scheduled.
      Once the tree is unmounted nothing happens any more. */
  predicate Enabled(s: QuizState, countries: seq<Country>, e: Event)
  {
    !s.unmounted &&
    match e
    case ChooseDifficulty(_, pick, perm) => s.status == NotStarted && ValidDraw(countries, pick, perm)
    case ClickPlayAgain(pick, perm) => s.status == Ended && ValidDraw(countries, pick, perm)
    case QuestionSecond => true
    case GameSecond => true
    case ClickOption(_) => s.status == Playing && s.current.Some?
    case QuestionExpired => s.questionTimeLeft == 0
    case DelayElapsed(pick, perm) => |s.pending| > 0 && ValidDraw(countries, pick, perm)
  }

  function Step(s: QuizState, countries: seq<Country>, e: Event): QuizState
    requires Enabled(s, countries, e)
  {
    match e
    case ChooseDifficulty(d, pick, perm) => AfterStart(s, countries, d, pick, perm)
    case ClickPlayAgain(pick, perm) => AfterPlayAgain(s, countries, pick, perm)
    case QuestionSecond => AfterQuestionTick(s)
    case GameSecond => AfterGameTick(s)
    case ClickOption(selected) => AfterAnswer(s, selected)
    case QuestionExpired => AfterTimeOut(s)
    case DelayElapsed(pick, perm) => AfterContinuation(s, countries, pick, perm)
  }

  /** Runs a sequence of events from `s`; an event that cannot occur in the
      state reached is ignored. */
  function Run(s: QuizState, countries: seq<Country>, events: seq<Event>): QuizState
    decreases |events|
  {
    if events == [] then s
    else if Enabled(s, countries, events[0]) then Run(Step(s, countries, events[0]), countries, events[1..])
    else Run(s, countries, events[1..])
  }

  // ---------------------------------------------------------------------
  // Properties of the transitions
  // ---------------------------------------------------------------------

  lemma InitialInv(countries: seq<Country>)
    ensures Inv(Initial(), countries)
    ensures Initial().status == NotStarted && Initial().score == 0 && Initial().streak == 0
  {
  }

  /** startQuiz: playing, score and streak zero, 30 s of game, the
      difficulty's seconds per question, and a fresh question whose answer
      is the picked country. Message and scheduled continuations are kept. */
  lemma StartResets(s: QuizState, countries: seq<Country>, difficulty: string, pick: nat, perm: seq<nat>)
    requires ValidDraw(countries, pick, perm)
    ensures var t := AfterStart(s, countries, difficulty, pick, perm);
      t.status == Playing && t.score == 0 && t.streak == 0
      && t.gameTimeLeft == GameSeconds && t.questionTimeLeft == DifficultyTimer(difficulty)
      && t.difficulty == difficulty && t.message == s.message && t.pending == s.pending
      && (|countries| > 0 ==>
            t.current == Some(ToOption(countries[pick])) && t.current.value in t.options
            && |t.options| == 1 + Min(DistractorCount, |OtherCoded(countries, countries[pick].cca3)|)
            && multiset(t.options) == multiset(BaseOptions(countries, countries[pick])))
      && (|countries| == 0 ==> t.current == s.current && t.options == s.options)
      && t.unmounted == s.unmounted
  {
    if |countries| > 0 {
      QuestionShape(countries, pick, perm);
    }
  }

  /** "Play Again" restarts with the stored difficulty and its seconds. */
  lemma PlayAgainKeepsDifficulty(s: QuizState, countries: seq<Country>, pick: nat, perm: seq<nat>)
    requires ValidDraw(countries, pick, perm)
    ensures var t := AfterPlayAgain(s, countries, pick, perm);
      t.difficulty == s.difficulty && t.status == Playing
      && t.questionTimeLeft == DifficultyTimer(s.difficulty) && t.gameTimeLeft == GameSeconds
  {
  }

  /** A selected option whose name is the answer's adds one to score and to
      streak; any other resets the streak and keeps the score. Nothing about
      the clocks, status or question changes, and one continuation is
      scheduled. */
  lemma AnswerRule(s: QuizState, selected: QuizOption)
    requires s.current.Some?
    ensures var t := AfterAnswer(s, selected);
      (selected.name == s.current.value.name <==> t.score == s.score + 1 && t.streak == s.streak + 1)
      && (selected.name != s.current.value.name ==> t.score == s.score && t.streak == 0)
      && t.status == s.status && t.questionTimeLeft == s.questionTimeLeft
      && t.gameTimeLeft == s.gameTimeLeft && t.current == s.current && t.options == s.options
      && t.difficulty == s.difficulty && t.pending == s.pending + [s.difficulty]
      && t.message == (if selected.name == s.current.value.name then Correct else Wrong(s.current.value.name))
      && t.unmounted == s.unmounted
  {
  }

  /** A timeout has the effect of a wrong answer on score, streak and the
      scheduled continuations, and names the answer in its message; status,
      clocks and question stay as they were. */
  lemma TimeOutIsWrongAnswer(s: QuizState, wrong: QuizOption)
    requires s.current.Some? && wrong.name != s.current.value.name
    ensures AfterTimeOut(s).score == AfterAnswer(s, wrong).score == s.score
    ensures AfterTimeOut(s).streak == AfterAnswer(s, wrong).streak == 0
    ensures AfterTimeOut(s).pending == AfterAnswer(s, wrong).pending
    ensures AfterTimeOut(s).message == TimesUp(s.current.value.name)
      && AfterAnswer(s, wrong).message == Wrong(s.current.value.name)
    ensures var t := AfterTimeOut(s);
      t.status == s.status && t.questionTimeLeft == s.questionTimeLeft
      && t.gameTimeLeft == s.gameTimeLeft && t.current == s.current && t.options == s.options
      && t.difficulty == s.difficulty && t.unmounted == s.unmounted
  {
  }

  /** A timeout with no current country can only happen on an empty list,
      and it unmounts the component and leaves everything else as it was. */
  lemma TimeOutWithoutQuestion(s: QuizState, countries: seq<Country>)
    requires Inv(s, countries) && Enabled(s, countries, QuestionExpired) && s.current.None?
    ensures |countries| == 0 && s.status != NotStarted
    ensures AfterTimeOut(s) == s.(unmounted := true)
  {
  }

  /** On an empty list no question is ever shown, so no continuation is ever
      scheduled: the continuation's failing branch is unreachable while the
      list stays fixed. */
  lemma EmptyListNothingPending(s: QuizState)
    requires Inv(s, [])
    ensures s.current.None? && s.pending == []
  {
  }

  /** After the tree is unmounted no event has any effect. */
  lemma {:induction false} UnmountedIsFinal(s: QuizState, countries: seq<Country>, events: seq<Event>)
    requires s.unmounted
    ensures Run(s, countries, events) == s
    decreases |events|
  {
    if events != [] {
      UnmountedIsFinal(s, countries, events[1..]);
    }
  }

  /** The status moves only along the lifecycle: not started to playing,
      playing to ended, and ended to playing again. */
  lemma StatusEdges(s: QuizState, countries: seq<Country>, e: Event)
    requires Inv(s, countries) && Enabled(s, countries, e)
    ensures var t := Step(s, countries, e);
      t.status == s.status
      || (s.status == NotStarted && t.status == Playing && e.ChooseDifficulty?)
      || (s.status == Ended && t.status == Playing && e.ClickPlayAgain?)
      || (s.status == Playing && t.status == Ended && e.GameSecond?)
  {
  }

  /** Each question tick lowers the question clock by exactly one while
      playing with time left, and otherwise changes nothing. */
  lemma QuestionTickRule(s: QuizState)
    ensures var t := AfterQuestionTick(s);
      t == s.(questionTimeLeft := t.questionTimeLeft)
      && (s.status == Playing && s.questionTimeLeft > 0 <==> t.questionTimeLeft == s.questionTimeLeft - 1)
      && (s.questionTimeLeft >= 0 ==> t.questionTimeLeft >= 0)
      && (!(s.status == Playing && s.questionTimeLeft > 0) ==> t == s)
  {
  }

  /** Each game tick lowers the game clock by exactly one while playing with
      time left; reaching zero ends the game with the score in the message,
      whatever the question clock says. */
  lemma GameTickRule(s: QuizState)
    ensures var t := AfterGameTick(s);
      (s.status == Playing && s.gameTimeLeft > 0 <==> t.gameTimeLeft == s.gameTimeLeft - 1)
      && (s.gameTimeLeft >= 0 ==> t.gameTimeLeft >= 0)
      && t.score == s.score && t.streak == s.streak && t.questionTimeLeft == s.questionTimeLeft
      && t.current == s.current && t.options == s.options && t.pending == s.pending
      && (s.status == Playing && s.gameTimeLeft == 1 ==> t.status == Ended && t.message == GameOver(s.score))
      && (t.status != s.status ==> s.status == Playing && s.gameTimeLeft == 1 && t.status == Ended)
      && t.difficulty == s.difficulty && t.unmounted == s.unmounted
      && (!(s.status == Playing && s.gameTimeLeft == 1) ==> t.message == s.message)
      && (!(s.status == Playing && s.gameTimeLeft > 0) ==> t == s)
  {
  }

  /** The continuation clears the message, puts up a question for the picked
      country and gives it the current difficulty's seconds; score, streak,
      status and game clock stay as they are. */
  lemma ContinuationRule(s: QuizState, countries: seq<Country>, pick: nat, perm: seq<nat>)
    requires Inv(s, countries) && |s.pending| > 0 && ValidDraw(countries, pick, perm)
    ensures var t := AfterContinuation(s, countries, pick, perm);
      t.message == NoMessage && t.pending == s.pending[1..]
      && t.score == s.score && t.streak == s.streak && t.status == s.status
      && t.gameTimeLeft == s.gameTimeLeft && t.difficulty == s.difficulty
      && t.questionTimeLeft == DifficultyTimer(s.difficulty)
      && t.current == Some(ToOption(countries[pick])) && t.current.value in t.options
      && multiset(t.options) == multiset(BaseOptions(countries, countries[pick]))
      && t.unmounted == s.unmounted
  {
    QuestionShape(countries, pick, perm);
  }

  /** No status guard: a continuation still pending when the game ends fires
      into the ended game and wipes its final-score message. */
  lemma ContinuationAfterGameOver(s: QuizState, countries: seq<Country>, pick: nat, perm: seq<nat>)
    requires Inv(s, countries) && s.status == Ended && |s.pending| > 0 && ValidDraw(countries, pick, perm)
    ensures var t := AfterContinuation(s, countries, pick, perm);
      t.status == Ended && t.message == NoMessage
      && t.questionTimeLeft == DifficultyTimer(s.difficulty) > 0
  {
    ContinuationRule(s, countries, pick, perm);
  }

  /** Every event keeps the invariant, so neither clock goes negative, the
      streak never exceeds the score, and a current country is always among
      the options. */
  lemma StepPreservesInv(s: QuizState, countries: seq<Country>, e: Event)
    requires Inv(s, countries) && Enabled(s, countries, e)
    ensures Inv(Step(s, countries, e), countries)
  {
    match e
    case ChooseDifficulty(d, pick, perm) =>
      StartResets(s, countries, d, pick, perm);
    case ClickPlayAgain(pick, perm) =>
      StartResets(s, countries, s.difficulty, pick, perm);
    case QuestionSecond =>
    case GameSecond =>
    case ClickOption(selected) =>
    case QuestionExpired =>
    case DelayElapsed(pick, perm) =>
      ContinuationRule(s, countries, pick, perm);
  }

  /** Score only grows by one or restarts at zero with a new game; the streak
      grows by one, stays, or drops to zero. */
  lemma ScoreAndStreakSteps(s: QuizState, countries: seq<Country>, e: Event)
    requires Inv(s, countries) && Enabled(s, countries, e)
    ensures var t := Step(s, countries, e);
      (t.score == s.score || t.score == s.score + 1 || (t.score == 0 && (e.ChooseDifficulty? || e.ClickPlayAgain?)))
      && (t.streak == 0 || t.streak == s.streak || t.streak == s.streak + 1)
  {
    match e
    case ChooseDifficulty(d, pick, perm) =>
      StartResets(s, countries, d, pick, perm);
    case ClickPlayAgain(pick, perm) =>
      StartResets(s, countries, s.difficulty, pick, perm);
    case QuestionSecond =>
    case GameSecond =>
    case ClickOption(selected) =>
    case QuestionExpired =>
    case DelayElapsed(pick, perm) =>
      ContinuationRule(s, countries, pick, perm);
  }

  /** Every state reached by a sequence of events from a state satisfying
      the invariant satisfies it too; with `InitialInv`, so does every state
      reachable from the initial one. */
  lemma {:induction false} RunPreservesInv(s: QuizState, countries: seq<Country>, events: seq<Event>)
    requires Inv(s, countries)
    ensures Inv(Run(s, countries, events), countries)
    decreases |events|
  {
    if events != [] {
      if Enabled(s, countries, events[0]) {
        StepPreservesInv(s, countries, events[0]);
        RunPreservesInv(Step(s, countries, events[0]), countries, events[1..]);
      } else {
        RunPreservesInv(s, countries, events[1..]);
      }
    }
  }

  // ---------------------------------------------------------------------
  // The component
  // ---------------------------------------------------------------------

  /** The FlagQuiz component: its state fields, updated by its handlers.
      No handler, interval or effect runs once the tree is unmounted. */
  class Quiz {
    const countries: seq<Country>
    var currentCountry: Option<QuizOption>
    var options: seq<QuizOption>
    var message: Message
    var score: int
    var gameStatus: Status
    var questionTimeLeft: int
    var gameTimeLeft: int
    var difficulty: string
    var streak: int
    var pending: seq<string>
    var unmounted: bool

    function State(): QuizState
      reads this
    {
      QuizState(gameStatus, score, streak, questionTimeLeft, gameTimeLeft, difficulty,
                currentCountry, options, message, pending, unmounted)
    }

    predicate Valid()
      reads this
    {
      Inv(State(), countries)
    }

    constructor (countries: seq<Country>)
      ensures this.countries == countries && State() == Initial() && Valid()
    {
      this.countries := countries;
      currentCountry := None;
      options := [];
      message := NoMessage;
      score := 0;
      gameStatus := NotStarted;
      questionTimeLeft := 10;
      gameTimeLeft := GameSeconds;
      difficulty := "medium";
      streak := 0;
      pending := [];
      unmounted := false;
    }

    /** `generateQuestion`; `built` is false when it throws on an empty list. */
    method GenerateQuestion(pick: nat, perm: seq<nat>) returns (built: bool)
      requires ValidDraw(countries, pick, perm)
      modifies this
      ensures built <==> |countries| > 0
      ensures State() == WithQuestion(old(State()), NewQuestion(countries, pick, perm))
    {
      var q := NewQuestion(countries, pick, perm);
      match q {
        case None =>
          built := false;
        case Some(question) =>
          currentCountry := Some(question.correct);
          options := question.options;
          built := true;
      }
    }

    /** `startQuiz(selectedDifficulty)`; its callers are the difficulty
        buttons before the first game and "Play Again" after one. */
    method StartQuiz(selectedDifficulty: string, pick: nat, perm: seq<nat>)
      requires Valid() && !unmounted && ValidDraw(countries, pick, perm)
      requires gameStatus == NotStarted || (gameStatus == Ended && selectedDifficulty == difficulty)
      modifies this
      ensures Valid()
      ensures State() == AfterStart(old(State()), countries, selectedDifficulty, pick, perm)
    {
      ghost var before := State();
      difficulty := selectedDifficulty;
      gameStatus := Playing;
      score := 0;
      streak := 0;
      gameTimeLeft := GameSeconds;
      questionTimeLeft := DifficultyTimer(selectedDifficulty);
      var _ := GenerateQuestion(pick, perm);
      if before.status == NotStarted {
        StepPreservesInv(before, countries, ChooseDifficulty(selectedDifficulty, pick, perm));
      } else {
        StepPreservesInv(before, countries, ClickPlayAgain(pick, perm));
      }
    }

    /** The "Play Again" button. */
    method PlayAgain(pick: nat, perm: seq<nat>)
      requires Valid() && !unmounted && gameStatus == Ended && ValidDraw(countries, pick, perm)
      modifies this
      ensures Valid()
      ensures State() == AfterPlayAgain(old(State()), countries, pick, perm)
    {
      StartQuiz(difficulty, pick, perm);
    }

    /** A second of the question interval. */
    method TickQuestion()
      requires Valid() && !unmounted
      modifies this
      ensures Valid()
      ensures State() == AfterQuestionTick(old(State()))
    {
      if gameStatus == Playing && questionTimeLeft > 0 {
        questionTimeLeft := questionTimeLeft - 1;
      }
    }

    /** `endGame`, called by the game effect once its clock reads zero. */
    method EndGame()
      requires gameTimeLeft == 0
      modifies this
      ensures State() == AfterEndGame(old(State()))
    {
      gameStatus := Ended;
      message := GameOver(score);
    }

    /** A second of the game interval, then the effect's expiry branch. */
    method TickGame()
      requires Valid() && !unmounted
      modifies this
      ensures Valid()
      ensures State() == AfterGameTick(old(State()))
    {
      if gameStatus == Playing && gameTimeLeft > 0 {
        gameTimeLeft := gameTimeLeft - 1;
        if gameTimeLeft == 0 {
          EndGame();
        }
      }
    }

    /** `handleAnswer(selectedOption)` */
    method HandleAnswer(selectedOption: QuizOption)
      requires Valid() && !unmounted && gameStatus == Playing && currentCountry.Some?
      modifies this
      ensures Valid()
      ensures State() == AfterAnswer(old(State()), selectedOption)
    {
      var answer := currentCountry.value.name;
      if selectedOption.name == answer {
        message := Correct;
        score := score + 1;
        streak := streak + 1;
      } else {
        message := Wrong(answer);
        streak := 0;
      }
      pending := pending + [difficulty];
    }

    /** `handleTimeOut`, called by the question effect once its clock reads zero. */
    method HandleTimeOut()
      requires Valid() && !unmounted && questionTimeLeft == 0
      modifies this
      ensures Valid()
      ensures State() == AfterTimeOut(old(State()))
    {
      match currentCountry {
        case None =>
          unmounted := true;
        case Some(c) =>
          message := TimesUp(c.name);
          streak := 0;
          pending := pending + [difficulty];
      }
    }

    /** The oldest scheduled continuation fires. */
    method ResolvePending(pick: nat, perm: seq<nat>)
      requires Valid() && !unmounted && |pending| > 0 && ValidDraw(countries, pick, perm)
      modifies this
      ensures Valid()
      ensures State() == AfterContinuation(old(State()), countries, pick, perm)
    {
      ghost var before := State();
      var captured := pending[0];
      pending := pending[1..];
      message := NoMessage;
      var built := GenerateQuestion(pick, perm);
      if built {
        questionTimeLeft := DifficultyTimer(captured);
      }
      StepPreservesInv(before, countries, DelayElapsed(pick, perm));
    }
  }
}
