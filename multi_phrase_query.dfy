/**
 * A multi-phrase query: a phrase in which each position may match any one
 * of several terms. The query keeps two parallel lists, the term arrays and
 * their phrase positions, plus the field every term belongs to, the slop and
 * the boost inherited from the query base class.
 *
 * The boost is a `real` compared only by equality. Hashing of one term array
 * is not part of this model and is passed in as a function.
 */
module Search {
  import opened Numbers

  /** A term: the field it belongs to and its text. */
  datatype Term = Term(field: string, text: string)

  /** Outcome of an `add`: accepted, or the IllegalArgumentException for a term of another field. */
  datatype AddOutcome = Added | MixedFields(expected: string, offending: Term)

  /** The pieces of the boolean query that `rewrite` builds. */
  datatype Occur = Must | Should | MustNot
  datatype TermQuery = TermQuery(term: Term)
  datatype BooleanClause = BooleanClause(query: TermQuery, occur: Occur)
  datatype BooleanQuery = BooleanQuery(disableCoord: bool, clauses: seq<BooleanClause>, boost: real)

  /** The result of `rewrite`: a new boolean query, or the query itself. */
  datatype Rewritten = Rewritten(query: BooleanQuery) | Itself

  // ---------------------------------------------------------------------
  // Specification functions
  // ---------------------------------------------------------------------

  /** Every term of every array belongs to field `f`. */
  ghost predicate AllInField(arrays: seq<seq<Term>>, f: string)
  {
    forall i, j :: 0 <= i < |arrays| && 0 <= j < |arrays[i]| ==> arrays[i][j].field == f
  }

  /** The position an `add` without a position gives: 0 first, then one past the last position. */
  function ImplicitPosition(positions: seq<Int32>): (p: Int32)
    ensures positions == [] ==> p == 0
    ensures positions != [] && positions[|positions| - 1] < INT32_MAX ==> p == positions[|positions| - 1] + 1
    ensures positions != [] && positions[|positions| - 1] == INT32_MAX ==> p == INT32_MIN
  {
    if positions == [] then 0 else Wrap32(positions[|positions| - 1] as int + 1)
  }

  /** The positions 0, 1, ..., n - 1. */
  function Consecutive(n: nat): (s: seq<Int32>)
    requires n <= INT32_MAX + 1
    ensures |s| == n
    ensures forall i :: 0 <= i < n ==> s[i] == i
  {
    if n == 0 then [] else Consecutive(n - 1) + [n - 1]
  }

  /** Strings separated by single spaces. */
  function JoinWithSpaces(pieces: seq<string>): string
  {
    if pieces == [] then []
    else if |pieces| == 1 then pieces[0]
    else JoinWithSpaces(pieces[..|pieces| - 1]) + " " + pieces[|pieces| - 1]
  }

  /** The texts of `terms`, in order. */
  function Texts(terms: seq<Term>): (r: seq<string>)
    ensures |r| == |terms|
    ensures forall i :: 0 <= i < |terms| ==> r[i] == terms[i].text
  {
    seq(|terms|, i requires 0 <= i < |terms| => terms[i].text)
  }

  /** One array as `toString` writes it: parenthesised when it has several terms, bare when one, nothing when empty. */
  function ArrayText(terms: seq<Term>): string
  {
    if |terms| > 1 then "(" + JoinWithSpaces(Texts(terms)) + ")"
    else if terms != [] then terms[0].text
    else []
  }

  /** The rendering of each array, in order. */
  function ArrayTexts(arrays: seq<seq<Term>>): (r: seq<string>)
    ensures |r| == |arrays|
    ensures forall i :: 0 <= i < |arrays| ==> r[i] == ArrayText(arrays[i])
  {
    seq(|arrays|, i requires 0 <= i < |arrays| => ArrayText(arrays[i]))
  }

  /** All arrays as `toString` writes them between the quotes, separated by single spaces. */
  function ArraysText(arrays: seq<seq<Term>>): string
  {
    JoinWithSpaces(ArrayTexts(arrays))
  }

  /** The `field:` prefix, omitted only when `f` is non-empty and names the query's field. */
  function FieldPrefix(queryField: string, f: string): (p: string)
    ensures p == [] <==> f != [] && f == queryField
    ensures p != [] ==> p == queryField + ":"
  {
    if f == [] || queryField != f then queryField + ":" else []
  }

  /** The `~slop` suffix, present exactly when the slop is not zero; it reads back as the slop. */
  function SlopSuffix(slop: Int32): (s: string)
    ensures s == [] <==> slop == 0
    ensures s != [] ==>
      && s[0] == '~' && |s| >= 2
      && (forall i :: (if s[1] == '-' then 2 else 1) <= i < |s| ==> '0' <= s[i] <= '9')
      && ParseDecimal(s[1..]) == slop
  {
    if slop == 0 then []
    else
      DecimalRoundTrip(slop);
      assert ("~" + DecimalString(slop))[1..] == DecimalString(slop);
      "~" + DecimalString(slop)
  }

  /** The text `toString(f)` produces, without the boost suffix. */
  function Render(queryField: string, arrays: seq<seq<Term>>, slop: Int32, f: string): string
  {
    FieldPrefix(queryField, f) + "\"" + ArraysText(arrays) + "\"" + SlopSuffix(slop)
  }

  /** One SHOULD clause holding a term query per term, in order. */
  function ShouldClauses(terms: seq<Term>): (r: seq<BooleanClause>)
    ensures |r| == |terms|
    ensures forall i :: 0 <= i < |terms| ==> r[i] == BooleanClause(TermQuery(terms[i]), Should)
  {
    if terms == [] then [] else [BooleanClause(TermQuery(terms[0]), Should)] + ShouldClauses(terms[1..])
  }

  /** Element-wise term comparison of two arrays of equal size (`equalTermArrays`). */
  predicate ArrayEquals(first: seq<Term>, second: seq<Term>): (r: bool)
    ensures r <==> first == second
  {
    |first| == |second| && forall i :: 0 <= i < |first| ==> first[i] == second[i]
  }

  /**
   * `termArraysEquals`: same number of arrays, each pair equal element-wise;
   * this holds exactly when the two sequences of arrays are equal.
   */
  predicate TermArraysEquals(first: seq<seq<Term>>, second: seq<seq<Term>>): (r: bool)
    ensures r <==> first == second
  {
    |first| == |second| && forall i :: 0 <= i < |first| ==> ArrayEquals(first[i], second[i])
  }

  /** The 31-based hash fold over the arrays, from 1, with `int32_t` wrap-around at every step. */
  function HashFold(arrays: seq<seq<Term>>, arrayHash: seq<Term> -> Int32): Int32
  {
    if arrays == [] then 1
    else Wrap32(31 * HashFold(arrays[..|arrays| - 1], arrayHash) + arrayHash(arrays[|arrays| - 1]))
  }

  /** The same fold over unbounded integers. */
  function PolyHash(arrays: seq<seq<Term>>, arrayHash: seq<Term> -> Int32): int
  {
    if arrays == [] then 1
    else 31 * PolyHash(arrays[..|arrays| - 1], arrayHash) + arrayHash(arrays[|arrays| - 1])
  }

  /** Joining one more piece adds a space (unless it is the first piece) and the piece. */
  lemma JoinSnoc(pieces: seq<string>, j: nat)
    requires j < |pieces|
    ensures JoinWithSpaces(pieces[..j + 1]) == JoinWithSpaces(pieces[..j]) + (if j > 0 then " " else "") + pieces[j]
  {
    assert pieces[..j + 1][..j] == pieces[..j];
  }

  lemma AppendAssoc(a: string, b: string, c: string, d: string)
    ensures (a + b) + c + d == a + (b + c + d)
  {
  }

  // ---------------------------------------------------------------------
  // The query
  // ---------------------------------------------------------------------

  class MultiPhraseQuery {
    var field: string
    var termArrays: seq<seq<Term>>
    var positions: seq<Int32>
    var slop: Int32
    var boost: real

    /**
     * The object invariant: one position per array, every term in the
     * query's field, and the first array (which fixed the field) non-empty.
     */
    ghost predicate Valid()
      reads this
    {
      && |termArrays| == |positions|
      && AllInField(termArrays, field)
      && (termArrays != [] ==> termArrays[0] != [])
    }

    constructor ()
      ensures Valid()
      ensures field == [] && termArrays == [] && positions == [] && slop == 0 && boost == 1.0
    {
      field := [];
      termArrays := [];
      positions := [];
      slop := 0;
      boost := 1.0;
    }

    /** `getSlop`: the slop stored by the constructor or the last `setSlop`. */
    function GetSlop(): (r: Int32)
      reads this
      ensures r == slop
    {
      slop
    }

    method SetSlop(s: Int32)
      modifies this
      ensures GetSlop() == s
      ensures field == old(field) && termArrays == old(termArrays) && positions == old(positions)
      ensures boost == old(boost)
    {
      slop := s;
    }

    /** `getTermArrays`: the arrays in the order they were added, one per position, all in the field. */
    function GetTermArrays(): (r: seq<seq<Term>>)
      reads this
      ensures r == termArrays
      ensures Valid() ==> |r| == |positions| && AllInField(r, field)
    {
      termArrays
    }

    /** `getPositions`: the positions in the order they were added, one per array. */
    function GetPositions(): (r: seq<Int32>)
      reads this
      ensures r == positions
      ensures Valid() ==> |r| == |termArrays|
    {
      positions
    }

    /**
     * `add(terms, position)`. The first add fixes the field from the first
     * term, even when it then fails. Every term must be in the field; the
     * first term that is not is reported and the lists are left as they were.
     */
    method AddAt(terms: seq<Term>, position: Int32) returns (outcome: AddOutcome)
      requires Valid()
      requires termArrays == [] ==> terms != []
      modifies this
      ensures Valid()
      ensures field == if old(termArrays) == [] then terms[0].field else old(field)
      ensures outcome.Added? <==> forall i :: 0 <= i < |terms| ==> terms[i].field == field
      ensures outcome.MixedFields? ==>
        outcome.expected == field &&
        exists i :: 0 <= i < |terms| && terms[i] == outcome.offending && terms[i].field != field &&
          forall j :: 0 <= j < i ==> terms[j].field == field
      ensures termArrays == if outcome.Added? then old(termArrays) + [terms] else old(termArrays)
      ensures positions == if outcome.Added? then old(positions) + [position] else old(positions)
      ensures slop == old(slop) && boost == old(boost)
    {
      if termArrays == [] {
        field := terms[0].field;
      }
      var i := 0;
      while i < |terms|
        invariant 0 <= i <= |terms|
        invariant forall j :: 0 <= j < i ==> terms[j].field == field
      {
        if terms[i].field != field {
          return MixedFields(field, terms[i]);
        }
        i := i + 1;
      }
      termArrays := termArrays + [terms];
      positions := positions + [position];
      outcome := Added;
    }

    /** `add(terms)`: adds at the implicit position, 0 first and then one past the last. */
    method AddArray(terms: seq<Term>) returns (outcome: AddOutcome)
      requires Valid()
      requires termArrays == [] ==> terms != []
      modifies this
      ensures Valid()
      ensures field == if old(termArrays) == [] then terms[0].field else old(field)
      ensures outcome.Added? <==> forall i :: 0 <= i < |terms| ==> terms[i].field == field
      ensures outcome.MixedFields? ==>
        outcome.expected == field &&
        exists i :: 0 <= i < |terms| && terms[i] == outcome.offending && terms[i].field != field &&
          forall j :: 0 <= j < i ==> terms[j].field == field
      ensures termArrays == if outcome.Added? then old(termArrays) + [terms] else old(termArrays)
      ensures positions == if outcome.Added? then old(positions) + [ImplicitPosition(old(positions))]
                           else old(positions)
      ensures slop == old(slop) && boost == old(boost)
    {
      var position: Int32 := 0;
      if positions != [] {
        position := Wrap32(positions[|positions| - 1] as int + 1);
      }
      outcome := AddAt(terms, position);
    }

    /** `add(term)`: a one-term array at the implicit position. */
    method Add(term: Term) returns (outcome: AddOutcome)
      requires Valid()
      modifies this
      ensures Valid()
      ensures field == if old(termArrays) == [] then term.field else old(field)
      ensures outcome.Added? <==> term.field == field
      ensures outcome.MixedFields? ==> outcome == MixedFields(field, term)
      ensures termArrays == if outcome.Added? then old(termArrays) + [[term]] else old(termArrays)
      ensures positions == if outcome.Added? then old(positions) + [ImplicitPosition(old(positions))]
                           else old(positions)
      ensures slop == old(slop) && boost == old(boost)
    {
      outcome := AddArray([term]);
      assert [term][0] == term;
      assert (forall i :: 0 <= i < |[term]| ==> [term][i].field == field) <==> term.field == field;
    }

    /** `extractTerms`: adds to `terms` exactly the terms that occur in some array. */
    method ExtractTerms(terms: set<Term>) returns (result: set<Term>)
      ensures forall t :: t in result <==> t in terms || exists i :: 0 <= i < |termArrays| && t in termArrays[i]
    {
      result := terms;
      var i := 0;
      while i < |termArrays|
        invariant 0 <= i <= |termArrays|
        invariant forall t :: t in result <==> t in terms || exists k :: 0 <= k < i && t in termArrays[k]
      {
        var arr := termArrays[i];
        var j := 0;
        while j < |arr|
          invariant 0 <= j <= |arr|
          invariant forall t :: t in result <==>
            t in terms || (exists k :: 0 <= k < i && t in termArrays[k]) || t in arr[..j]
        {
          result := result + {arr[j]};
          j := j + 1;
          assert arr[..j] == arr[..j - 1] + [arr[j - 1]];
        }
        assert arr[..j] == arr;
        i := i + 1;
      }
    }

    /**
     * `rewrite`: with exactly one array, a boolean query (coordination
     * disabled) with one SHOULD clause per term in array order, carrying the
     * query's boost; otherwise the query itself.
     */
    function Rewrite(): (r: Rewritten)
      reads this
      ensures r.Rewritten? <==> |termArrays| == 1
      ensures r.Rewritten? ==>
        r.query.disableCoord && r.query.boost == boost &&
        |r.query.clauses| == |termArrays[0]| &&
        forall i :: 0 <= i < |termArrays[0]| ==>
          r.query.clauses[i] == BooleanClause(TermQuery(termArrays[0][i]), Should)
    {
      if |termArrays| == 1 then Rewritten(BooleanQuery(true, ShouldClauses(termArrays[0]), boost))
      else Itself
    }

    /** `toString(f)` up to the boost suffix. */
    method ToString(f: string) returns (s: string)
      ensures s == Render(field, termArrays, slop, f)
    {
      s := [];
      if f == [] || field != f {
        s := s + field + ":";
      }
      s := s + "\"";
      ghost var head := s;
      assert head == FieldPrefix(field, f) + "\"";
      var i := 0;
      ghost var pieces := ArrayTexts(termArrays);
      assert s == head + JoinWithSpaces(pieces[..i]) by {
        assert pieces[..i] == [];
      }
      while i < |termArrays|
        invariant 0 <= i <= |termArrays|
        invariant s == head + JoinWithSpaces(pieces[..i])
      {
        var arr := termArrays[i];
        ghost var before := s;
        if i > 0 {
          s := s + " ";
        }
        ghost var sep := s;
        s := AppendArray(s, arr);
        assert sep == before + (if i > 0 then " " else "");
        JoinSnoc(pieces, i);
        AppendAssoc(head, JoinWithSpaces(pieces[..i]), if i > 0 then " " else "", pieces[i]);
        i := i + 1;
      }
      assert pieces[..i] == pieces;
      s := s + "\"";
      ghost var body := s;
      if slop != 0 {
        s := s + "~" + DecimalString(slop);
      }
      assert s == body + SlopSuffix(slop);
      assert body == FieldPrefix(field, f) + "\"" + ArraysText(termArrays) + "\"";
    }

    /** The inner loop of `toString`: writes one array onto the buffer. */
    static method AppendArray(buffer: string, arr: seq<Term>) returns (s: string)
      ensures s == buffer + ArrayText(arr)
    {
      s := buffer;
      if |arr| > 1 {
        s := s + "(";
        var j := 0;
        while j < |arr|
          invariant 0 <= j <= |arr|
          invariant s == buffer + "(" + JoinWithSpaces(Texts(arr)[..j])
        {
          if j > 0 {
            s := s + " ";
          }
          s := s + arr[j].text;
          JoinSnoc(Texts(arr), j);
          j := j + 1;
        }
        assert Texts(arr)[..j] == Texts(arr);
        s := s + ")";
        assert s == buffer + ("(" + JoinWithSpaces(Texts(arr)) + ")");
      } else if arr != [] {
        s := s + arr[0].text;
      } else {
        assert ArrayText(arr) == [];
      }
    }

    /**
     * `equals`: the very same object, or another multi-phrase query with the
     * same boost, slop, term arrays (compared element-wise) and positions.
     * The field is not compared.
     */
    predicate Equals(other: object?): (r: bool)
      reads this, other
      ensures other == this ==> r
      ensures other == null || !(other is MultiPhraseQuery) ==> !r
      ensures other is MultiPhraseQuery && other != this ==>
        var o := other as MultiPhraseQuery;
        (r <==> boost == o.boost && slop == o.slop && termArrays == o.termArrays && positions == o.positions)
    {
      if other == this then true
      else if other == null || !(other is MultiPhraseQuery) then false
      else
        var o := other as MultiPhraseQuery;
        boost == o.boost && slop == o.slop &&
        TermArraysEquals(termArrays, o.termArrays) && positions == o.positions
    }

    /** `termArraysHashCode`: the 31-based fold from 1 over the array hashes, in `int32_t`. */
    method TermArraysHashCode(arrayHash: seq<Term> -> Int32) returns (h: Int32)
      ensures h == HashFold(termArrays, arrayHash)
    {
      h := 1;
      var i := 0;
      while i < |termArrays|
        invariant 0 <= i <= |termArrays|
        invariant h == HashFold(termArrays[..i], arrayHash)
      {
        h := Wrap32(31 * h + arrayHash(termArrays[i]));
        i := i + 1;
        assert termArrays[..i][..i - 1] == termArrays[..i - 1];
      }
      assert termArrays[..i] == termArrays;
    }

    /**
     * `clone(other)`: copies boost, field, term arrays, positions and slop
     * into `other`, or into a new query when `other` is null.
     */
    method Clone(other: MultiPhraseQuery?) returns (c: MultiPhraseQuery)
      modifies other
      ensures other == null ==> fresh(c)
      ensures other != null ==> c == other
      ensures c.field == field && c.termArrays == termArrays && c.positions == positions
      ensures c.slop == slop && c.boost == boost
      ensures field == old(field) && termArrays == old(termArrays) && positions == old(positions)
      ensures slop == old(slop) && boost == old(boost)
      ensures c.Equals(this) && this.Equals(c)
      ensures old(Valid()) ==> c.Valid()
    {
      if other == null {
        c := new MultiPhraseQuery();
      } else {
        c := other;
      }
      c.boost := boost;
      c.field := field;
      c.termArrays := termArrays;
      c.positions := positions;
      c.slop := slop;
    }
  }

  // ---------------------------------------------------------------------
  // Properties
  // ---------------------------------------------------------------------

  /** A query built by implicit adds only has the positions 0, 1, ..., n - 1. */
  lemma ImplicitPositionsAreConsecutive(positions: seq<Int32>)
    requires |positions| <= INT32_MAX
    requires positions == Consecutive(|positions|)
    ensures positions + [ImplicitPosition(positions)] == Consecutive(|positions| + 1)
  {
    var n := |positions|;
    assert n > 0 ==> positions[n - 1] == n - 1;
    assert ImplicitPosition(positions) == n;
  }

  /** `equals` is reflexive and symmetric. */
  lemma EqualsIsSymmetric(q: MultiPhraseQuery, o: MultiPhraseQuery)
    ensures q.Equals(q)
    ensures q.Equals(o) ==> o.Equals(q)
  {
  }

  /**
   * Equal valid queries with at least one array are in the same field,
   * although `equals` does not compare fields.
   */
  lemma EqualQueriesShareField(q: MultiPhraseQuery, o: MultiPhraseQuery)
    requires q.Valid() && o.Valid()
    requires q.Equals(o) && q.termArrays != []
    ensures q.field == o.field
  {
    if q != o {
      assert q.termArrays[0][0] == o.termArrays[0][0];
    }
  }

  /** Wrapping at every step of the fold gives the unbounded polynomial hash, wrapped once. */
  lemma {:induction false} HashFoldIsWrappedPolynomial(arrays: seq<seq<Term>>, arrayHash: seq<Term> -> Int32)
    ensures HashFold(arrays, arrayHash) == Wrap32(PolyHash(arrays, arrayHash))
  {
    if arrays != [] {
      var init := arrays[..|arrays| - 1];
      HashFoldIsWrappedPolynomial(init, arrayHash);
      WrapMulAdd(PolyHash(init, arrayHash), arrayHash(arrays[|arrays| - 1]));
    }
  }

  /** Equal queries have equal term-array hash codes, whatever the array hash is. */
  lemma EqualQueriesHashAlike(q: MultiPhraseQuery, o: MultiPhraseQuery, arrayHash: seq<Term> -> Int32)
    requires q.Equals(o)
    ensures HashFold(q.termArrays, arrayHash) == HashFold(o.termArrays, arrayHash)
  {
  }

  /** `rewrite` of a one-array query queries exactly the terms of that one array. */
  lemma RewriteKeepsTerms(q: MultiPhraseQuery)
    requires |q.termArrays| == 1
    ensures q.Rewrite().Rewritten?
    ensures forall i :: 0 <= i < |q.Rewrite().query.clauses| ==>
      q.Rewrite().query.clauses[i].query.term in q.termArrays[0]
    ensures forall t :: t in q.termArrays[0] ==>
      exists i :: 0 <= i < |q.Rewrite().query.clauses| && q.Rewrite().query.clauses[i].query.term == t
  {
    var clauses := q.Rewrite().query.clauses;
    forall t | t in q.termArrays[0]
      ensures exists i :: 0 <= i < |clauses| && clauses[i].query.term == t
    {
      var i :| 0 <= i < |q.termArrays[0]| && q.termArrays[0][i] == t;
      assert clauses[i].query.term == t;
    }
  }

  /** Joining `p + q` is joining `p`, one space, and joining `q`. */
  lemma {:induction false} JoinConcat(p: seq<string>, q: seq<string>)
    requires p != [] && q != []
    ensures JoinWithSpaces(p + q) == JoinWithSpaces(p) + " " + JoinWithSpaces(q)
    decreases |q|
  {
    var pq := p + q;
    if |q| > 1 {
      var init := q[..|q| - 1];
      assert pq[..|pq| - 1] == p + init;
      JoinConcat(p, init);
      AppendAssoc(JoinWithSpaces(p), " " + JoinWithSpaces(init), " ", q[|q| - 1]);
    } else {
      assert pq[..|pq| - 1] == p;
    }
  }

  /** The arrays of `a + b` render as those of `a`, one space, and those of `b`. */
  lemma ArraysTextConcat(a: seq<seq<Term>>, b: seq<seq<Term>>)
    requires a != [] && b != []
    ensures ArraysText(a + b) == ArraysText(a) + " " + ArraysText(b)
  {
    assert ArrayTexts(a + b) == ArrayTexts(a) + ArrayTexts(b);
    JoinConcat(ArrayTexts(a), ArrayTexts(b));
  }

  /** The first term of each array. */
  function Firsts(arrays: seq<seq<Term>>): (r: seq<Term>)
    requires forall i :: 0 <= i < |arrays| ==> arrays[i] != []
    ensures |r| == |arrays|
    ensures forall i :: 0 <= i < |arrays| ==> r[i] == arrays[i][0]
  {
    seq(|arrays|, i requires 0 <= i < |arrays| => arrays[i][0])
  }

  /** When every array holds one term, the query renders like a plain phrase: the texts joined by spaces. */
  lemma SingleTermArraysRenderAsPhrase(arrays: seq<seq<Term>>)
    requires forall i :: 0 <= i < |arrays| ==> |arrays[i]| == 1
    ensures ArraysText(arrays) == JoinWithSpaces(Texts(Firsts(arrays)))
  {
    assert ArrayTexts(arrays) == Texts(Firsts(arrays));
  }

  /** Occurrences of `c` in `s`. */
  function CountChar(c: char, s: string): nat
  {
    if s == [] then 0 else CountChar(c, s[..|s| - 1]) + (if s[|s| - 1] == c then 1 else 0)
  }

  lemma {:induction false} CountCharConcat(c: char, s: string, t: string)
    ensures CountChar(c, s + t) == CountChar(c, s) + CountChar(c, t)
    decreases |t|
  {
    if t != [] {
      assert (s + t)[..|s + t| - 1] == s + t[..|t| - 1];
      CountCharConcat(c, s, t[..|t| - 1]);
    } else {
      assert s + t == s;
    }
  }

  /** Occurrences of `c` in all the pieces together. */
  function CountInPieces(c: char, pieces: seq<string>): nat
  {
    if pieces == [] then 0 else CountInPieces(c, pieces[..|pieces| - 1]) + CountChar(c, pieces[|pieces| - 1])
  }

  /** Joining adds only spaces: any other character occurs as often as in the pieces. */
  lemma {:induction false} CountJoin(c: char, pieces: seq<string>)
    requires c != ' '
    ensures CountChar(c, JoinWithSpaces(pieces)) == CountInPieces(c, pieces)
  {
    if |pieces| > 1 {
      var init := pieces[..|pieces| - 1];
      CountJoin(c, init);
      CountCharConcat(c, JoinWithSpaces(init), " ");
      CountCharConcat(c, JoinWithSpaces(init) + " ", pieces[|pieces| - 1]);
      assert init[..|init| - 1] == pieces[..|pieces| - 2];
    } else if |pieces| == 1 {
      assert pieces[..0] == [];
    }
  }

  /** Number of arrays holding more than one term. */
  function MultiTermArrays(arrays: seq<seq<Term>>): nat
  {
    if arrays == [] then 0
    else MultiTermArrays(arrays[..|arrays| - 1]) + (if |arrays[|arrays| - 1]| > 1 then 1 else 0)
  }

  /** No term text contains '('. */
  ghost predicate NoParenInTexts(arrays: seq<seq<Term>>)
  {
    forall i, j :: 0 <= i < |arrays| && 0 <= j < |arrays[i]| ==> CountChar('(', arrays[i][j].text) == 0
  }

  lemma ArrayTextParens(terms: seq<Term>)
    requires forall j :: 0 <= j < |terms| ==> CountChar('(', terms[j].text) == 0
    ensures CountChar('(', ArrayText(terms)) == if |terms| > 1 then 1 else 0
  {
    if |terms| > 1 {
      var texts := Texts(terms);
      CountJoin('(', texts);
      TextsHaveNoParen(texts);
      CountCharConcat('(', "(", JoinWithSpaces(texts));
      CountCharConcat('(', "(" + JoinWithSpaces(texts), ")");
    }
  }

  lemma {:induction false} TextsHaveNoParen(texts: seq<string>)
    requires forall j :: 0 <= j < |texts| ==> CountChar('(', texts[j]) == 0
    ensures CountInPieces('(', texts) == 0
  {
    if texts != [] {
      TextsHaveNoParen(texts[..|texts| - 1]);
    }
  }

  /**
   * When no term text contains '(', the rendering holds exactly one '(' per
   * array of more than one term: only those arrays are parenthesised.
   */
  lemma {:induction false} ParenthesesMarkMultiTermArrays(arrays: seq<seq<Term>>)
    requires NoParenInTexts(arrays)
    ensures CountChar('(', ArraysText(arrays)) == MultiTermArrays(arrays)
  {
    CountJoin('(', ArrayTexts(arrays));
    ParensPerArray(arrays);
  }

  lemma {:induction false} ParensPerArray(arrays: seq<seq<Term>>)
    requires NoParenInTexts(arrays)
    ensures CountInPieces('(', ArrayTexts(arrays)) == MultiTermArrays(arrays)
  {
    if arrays != [] {
      var init := arrays[..|arrays| - 1];
      assert NoParenInTexts(init) by {
        forall i, j | 0 <= i < |init| && 0 <= j < |init[i]|
          ensures CountChar('(', init[i][j].text) == 0
        {
          assert init[i] == arrays[i];
        }
      }
      ParensPerArray(init);
      assert ArrayTexts(arrays)[..|arrays| - 1] == ArrayTexts(init);
      ArrayTextParens(arrays[|arrays| - 1]);
    }
  }
}
