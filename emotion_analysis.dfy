/** The lexicon-based emotion matcher of whisper_mic/emotion_analysis.py.

    The analyzer holds two tables read from CSV files: the annotation lexicon
    (word -> string of one-character tags), kept in insertion order because
    the matcher scans it in that order, and the category table (tag ->
    fine-grained and aggregate category). Matching takes the transcript and
    the normalised forms (`norm_`) the external tokenizer produced for it,
    sentence by sentence. */
module EmotionAnalysis {
  import opened Common

  /** One record of a CSV file, as `csv.reader` yields it. */
  type Row = seq<string>

  /** A value of the category table. */
  datatype Category = Category(detail: string, aggregate: string)

  /** One entry of the annotation lexicon: a word and its tags, one tag per character. */
  datatype Entry = Entry(word: string, tags: string)

  /** A Python dict from words to tag strings, in insertion order. */
  type Lexicon = seq<Entry>

  predicate UniqueWords(lex: Lexicon)
  {
    forall i, j :: 0 <= i < j < |lex| ==> lex[i].word != lex[j].word
  }

  /** The position of `word` in the lexicon, or -1 when it is absent. */
  function Find(lex: Lexicon, word: string): (i: int)
    ensures -1 <= i < |lex|
    ensures i >= 0 ==> lex[i].word == word && forall j :: 0 <= j < i ==> lex[j].word != word
    ensures i < 0 ==> forall j :: 0 <= j < |lex| ==> lex[j].word != word
  {
    if lex == [] then -1
    else if lex[0].word == word then 0
    else
      var k := Find(lex[1..], word);
      assert forall j :: 1 <= j < |lex| ==> lex[1..][j - 1] == lex[j];
      if k < 0 then -1 else k + 1
  }

  /** `d.get(word)` on the lexicon. */
  function Lookup(lex: Lexicon, word: string): (tags: Option<string>)
  {
    var i := Find(lex, word);
    if i < 0 then None else Some(lex[i].tags)
  }

  /** Find depends on the words alone, position by position. */
  lemma FindSameWords(a: Lexicon, b: Lexicon, w: string)
    requires |a| == |b| && forall j :: 0 <= j < |a| ==> a[j].word == b[j].word
    ensures Find(a, w) == Find(b, w)
  {
    var i, k := Find(a, w), Find(b, w);
    if i >= 0 && k >= 0 {
      assert !(i < k) && !(k < i);
    }
  }

  /** Appending an entry only adds a position for a word not found before. */
  lemma FindAppend(lex: Lexicon, e: Entry, w: string)
    ensures Find(lex + [e], w) == if Find(lex, w) >= 0 then Find(lex, w) else if e.word == w then |lex| else -1
  {
    var r := lex + [e];
    var i, k := Find(lex, w), Find(r, w);
    assert forall j :: 0 <= j < |lex| ==> r[j] == lex[j];
    if i >= 0 {
      assert !(i < k) && !(k < i);
    } else if e.word == w {
      assert r[|lex|].word == w;
    }
  }

  /** `d[word] = tags` on an insertion-ordered dict: a present key keeps its
      position and takes the new value, a new key goes to the end. */
  function Put(lex: Lexicon, word: string, tags: string): (r: Lexicon)
    ensures Lookup(r, word) == Some(tags)
    ensures forall w :: w != word ==> Lookup(r, w) == Lookup(lex, w)
    ensures Lookup(lex, word).None? ==> r == lex + [Entry(word, tags)]
    ensures Lookup(lex, word).Some? ==>
      |r| == |lex| && forall i :: 0 <= i < |lex| ==> r[i].word == lex[i].word
  {
    var i := Find(lex, word);
    if i < 0 then
      var r := lex + [Entry(word, tags)];
      assert forall w :: Find(r, w) == if Find(lex, w) >= 0 then Find(lex, w) else if word == w then |lex| else -1 by {
        forall w { FindAppend(lex, Entry(word, tags), w); }
      }
      r
    else
      var r := lex[i := Entry(word, tags)];
      assert forall w :: Find(r, w) == Find(lex, w) by {
        forall w { FindSameWords(r, lex, w); }
      }
      r
  }

  lemma PutKeepsWordsUnique(lex: Lexicon, word: string, tags: string)
    requires UniqueWords(lex)
    ensures UniqueWords(Put(lex, word, tags))
  {
  }

  // ---------------------------------------------------------------------
  // Loading the two tables (the CSV rows are given; reading files is not modelled)

  /** Every record has the three columns the loaders index. */
  predicate WellFormedRows(rows: seq<Row>)
  {
    forall i :: 0 <= i < |rows| ==> |rows[i]| >= 3
  }

  /** Row `i` is the last of `rows` whose `column` holds `key`. */
  predicate IsLastRowWith(rows: seq<Row>, column: nat, key: string, i: int)
    requires WellFormedRows(rows) && column < 3
  {
    0 <= i < |rows| && rows[i][column] == key &&
    forall j :: i < j < |rows| ==> rows[j][column] != key
  }

  /** The annotation lexicon after the data rows are stored one by one,
      column 0 as the key and column 2 as the tags. */
  function AnnotationTable(rows: seq<Row>): (lex: Lexicon)
    requires WellFormedRows(rows)
  {
    if rows == [] then []
    else
      var row := rows[|rows| - 1];
      Put(AnnotationTable(rows[..|rows| - 1]), row[0], row[2])
  }

  /** The category table after the data rows are stored one by one,
      column 1 as the key, columns 0 and 2 as detail and aggregate. */
  function CategoryTable(rows: seq<Row>): (categories: map<string, Category>)
    requires WellFormedRows(rows)
  {
    if rows == [] then map[]
    else
      var row := rows[|rows| - 1];
      CategoryTable(rows[..|rows| - 1])[row[1] := Category(row[0], row[2])]
  }

  /** Skip the header record, then store every data record; an empty file
      fails at the header and a short record fails when it is indexed. */
  method LoadAnnotations(rows: seq<Row>) returns (r: Result<Lexicon>)
    ensures rows == [] ==> r == Err(StopIteration)
    ensures rows != [] && WellFormedRows(rows[1..]) ==> r == Ok(AnnotationTable(rows[1..]))
    ensures rows != [] && !WellFormedRows(rows[1..]) ==> r == Err(IndexError)
  {
    if |rows| == 0 {
      return Err(StopIteration);
    }
    var lex: Lexicon := [];
    var i := 1;
    while i < |rows|
      invariant 1 <= i <= |rows|
      invariant WellFormedRows(rows[1..i])
      invariant lex == AnnotationTable(rows[1..i])
    {
      var row := rows[i];
      if |row| < 3 {
        assert rows[1..][i - 1] == row;
        return Err(IndexError);
      }
      ghost var next := rows[1..i + 1];
      assert next[..|next| - 1] == rows[1..i] && next[|next| - 1] == row;
      assert WellFormedRows(next);
      lex := Put(lex, row[0], row[2]);
      i := i + 1;
    }
    assert rows[1..i] == rows[1..];
    return Ok(lex);
  }

  /** The same loop for the category file. */
  method LoadCategories(rows: seq<Row>) returns (r: Result<map<string, Category>>)
    ensures rows == [] ==> r == Err(StopIteration)
    ensures rows != [] && WellFormedRows(rows[1..]) ==> r == Ok(CategoryTable(rows[1..]))
    ensures rows != [] && !WellFormedRows(rows[1..]) ==> r == Err(IndexError)
  {
    if |rows| == 0 {
      return Err(StopIteration);
    }
    var table: map<string, Category> := map[];
    var i := 1;
    while i < |rows|
      invariant 1 <= i <= |rows|
      invariant WellFormedRows(rows[1..i])
      invariant table == CategoryTable(rows[1..i])
    {
      var row := rows[i];
      if |row| < 3 {
        assert rows[1..][i - 1] == row;
        return Err(IndexError);
      }
      assert rows[1..i + 1][..i - 1] == rows[1..i];
      table := table[row[1] := Category(row[0], row[2])];
      i := i + 1;
    }
    assert rows[1..i] == rows[1..];
    return Ok(table);
  }

  /** Storing the rows in order leaves every word once, present iff some row
      has it, with the tags of the LAST row that has it. */
  lemma {:induction false} AnnotationLastRowWins(rows: seq<Row>, word: string)
    requires WellFormedRows(rows)
    ensures UniqueWords(AnnotationTable(rows))
    ensures Lookup(AnnotationTable(rows), word).None? <==> forall i :: 0 <= i < |rows| ==> rows[i][0] != word
    ensures forall i :: IsLastRowWith(rows, 0, word, i) ==> Lookup(AnnotationTable(rows), word) == Some(rows[i][2])
  {
    if rows != [] {
      var init := rows[..|rows| - 1];
      var row := rows[|rows| - 1];
      assert forall i :: 0 <= i < |init| ==> init[i] == rows[i];
      AnnotationLastRowWins(init, word);
      PutKeepsWordsUnique(AnnotationTable(init), row[0], row[2]);
      forall i | IsLastRowWith(rows, 0, word, i)
        ensures Lookup(AnnotationTable(rows), word) == Some(rows[i][2])
      {
        if i < |rows| - 1 {
          assert IsLastRowWith(init, 0, word, i);
        }
      }
    }
  }

  /** The same for the category table: later rows overwrite earlier ones. */
  lemma {:induction false} CategoryLastRowWins(rows: seq<Row>, tag: string)
    requires WellFormedRows(rows)
    ensures tag !in CategoryTable(rows) <==> forall i :: 0 <= i < |rows| ==> rows[i][1] != tag
    ensures forall i :: IsLastRowWith(rows, 1, tag, i) ==>
      tag in CategoryTable(rows) && CategoryTable(rows)[tag] == Category(rows[i][0], rows[i][2])
  {
    if rows != [] {
      var init := rows[..|rows| - 1];
      assert forall i :: 0 <= i < |init| ==> init[i] == rows[i];
      CategoryLastRowWins(init, tag);
      forall i | IsLastRowWith(rows, 1, tag, i)
        ensures tag in CategoryTable(rows) && CategoryTable(rows)[tag] == Category(rows[i][0], rows[i][2])
      {
        if i < |rows| - 1 {
          assert IsLastRowWith(init, 1, tag, i);
        }
      }
    }
  }

  // ---------------------------------------------------------------------
  // Matching

  /** All tokens' normalised forms, sentence after sentence. */
  function Flatten(sentences: seq<seq<string>>): (words: seq<string>)
  {
    if sentences == [] then []
    else Flatten(sentences[..|sentences| - 1]) + sentences[|sentences| - 1]
  }

  /** One category lookup per tag character, in character order; a tag
      missing from the table gives None. */
  function TagCategories(tags: string, categories: map<string, Category>): (found: seq<Option<Category>>)
  {
    seq(|tags|, k requires 0 <= k < |tags| => Get(categories, [tags[k]]))
  }

  /** What the matcher collects: for each lexicon entry in lexicon order
      whose word equals some candidate word, its tags' categories. */
  function Matches(lex: Lexicon, categories: map<string, Category>, words: seq<string>): (emotions: seq<Option<Category>>)
  {
    if lex == [] then []
    else
      var last := lex[|lex| - 1];
      Matches(lex[..|lex| - 1], categories, words) +
      (if last.word in words then TagCategories(last.tags, categories) else [])
  }

  /** The total number of tag characters of the entries that match. */
  function MatchedTagCount(lex: Lexicon, words: seq<string>): (count: nat)
  {
    if lex == [] then 0
    else (if lex[0].word in words then |lex[0].tags| else 0) + MatchedTagCount(lex[1..], words)
  }

  /** The output follows lexicon order: matching a concatenated lexicon is
      matching its parts one after the other. */
  lemma {:induction false} MatchesAppend(lex1: Lexicon, lex2: Lexicon, categories: map<string, Category>, words: seq<string>)
    ensures Matches(lex1 + lex2, categories, words) == Matches(lex1, categories, words) + Matches(lex2, categories, words)
  {
    if lex2 != [] {
      var init := lex2[..|lex2| - 1];
      assert (lex1 + lex2)[..|lex1 + lex2| - 1] == lex1 + init;
      MatchesAppend(lex1, init, categories, words);
    } else {
      assert lex1 + lex2 == lex1;
    }
  }

  /** The output holds exactly one item per tag character of each matching entry. */
  lemma {:induction false} MatchesLength(lex: Lexicon, categories: map<string, Category>, words: seq<string>)
    ensures |Matches(lex, categories, words)| == MatchedTagCount(lex, words)
  {
    if lex != [] {
      MatchesAppend([lex[0]], lex[1..], categories, words);
      assert [lex[0]] + lex[1..] == lex;
      assert [lex[0]][..0] == [];
      MatchesLength(lex[1..], categories, words);
    }
  }

  /** Nothing is collected iff every matching entry has an empty tag string;
      in particular, when no entry matches. */
  lemma {:induction false} MatchesEmpty(lex: Lexicon, categories: map<string, Category>, words: seq<string>)
    ensures Matches(lex, categories, words) == [] <==>
      forall i :: 0 <= i < |lex| && lex[i].word in words ==> lex[i].tags == ""
  {
    if lex != [] {
      var init := lex[..|lex| - 1];
      assert forall i :: 0 <= i < |init| ==> init[i] == lex[i];
      MatchesEmpty(init, categories, words);
    }
  }

  /** Only the SET of candidate words matters: repeating a word or
      reordering them changes nothing, so an entry contributes at most once. */
  lemma {:induction false} MatchesDependOnWordSet(lex: Lexicon, categories: map<string, Category>, words1: seq<string>, words2: seq<string>)
    requires forall w :: w in words1 <==> w in words2
    ensures Matches(lex, categories, words1) == Matches(lex, categories, words2)
  {
    if lex != [] {
      MatchesDependOnWordSet(lex[..|lex| - 1], categories, words1, words2);
    }
  }

  /** An item is collected iff it is the lookup of some tag character of some
      matching entry; so None is collected iff a matching entry carries a tag
      the category table lacks. */
  lemma {:induction false} MatchesMembership(lex: Lexicon, categories: map<string, Category>, words: seq<string>, x: Option<Category>)
    ensures x in Matches(lex, categories, words) <==>
      exists i, k :: 0 <= i < |lex| && lex[i].word in words && 0 <= k < |lex[i].tags| &&
                     x == Get(categories, [lex[i].tags[k]])
  {
    if lex != [] {
      var init := lex[..|lex| - 1];
      var last := lex[|lex| - 1];
      assert forall i :: 0 <= i < |init| ==> init[i] == lex[i];
      MatchesMembership(init, categories, words, x);
      var tail := if last.word in words then TagCategories(last.tags, categories) else [];
      assert Matches(lex, categories, words) == Matches(init, categories, words) + tail;
      if x in tail {
        var k :| 0 <= k < |tail| && tail[k] == x;
        assert x == Get(categories, [lex[|lex| - 1].tags[k]]);
      }
      if exists i, k :: 0 <= i < |lex| && lex[i].word in words && 0 <= k < |lex[i].tags| &&
                        x == Get(categories, [lex[i].tags[k]]) {
        var i, k :| 0 <= i < |lex| && lex[i].word in words && 0 <= k < |lex[i].tags| &&
                    x == Get(categories, [lex[i].tags[k]]);
        if i == |lex| - 1 {
          assert tail[k] == x;
        } else {
          assert init[i] == lex[i];
        }
      }
    }
  }

  /** Builds the candidate words: the whole text first, then every token's
      normalised form, sentence by sentence, token by token. */
  method CandidateWords(text: string, sentences: seq<seq<string>>) returns (words: seq<string>)
    ensures words == [text] + Flatten(sentences)
  {
    words := [text];
    var i := 0;
    while i < |sentences|
      invariant 0 <= i <= |sentences|
      invariant words == [text] + Flatten(sentences[..i])
    {
      var j := 0;
      while j < |sentences[i]|
        invariant 0 <= j <= |sentences[i]|
        invariant words == [text] + Flatten(sentences[..i]) + sentences[i][..j]
      {
        words := words + [sentences[i][j]];
        assert sentences[i][..j + 1] == sentences[i][..j] + [sentences[i][j]];
        j := j + 1;
      }
      assert sentences[..i + 1][..i] == sentences[..i];
      assert sentences[i][..j] == sentences[i];
      i := i + 1;
    }
    assert sentences[..i] == sentences;
  }

  /** The analyzer with its two tables loaded. */
  class EmotionAnalyzer {
    const annotations: Lexicon
    const categories: map<string, Category>

    constructor (annotations: Lexicon, categories: map<string, Category>)
      ensures this.annotations == annotations && this.categories == categories
    {
      this.annotations := annotations;
      this.categories := categories;
    }

    /** Scans the lexicon in order; for the first candidate word equal to an
        entry's word, appends one category lookup per tag character and stops
        looking at further words for that entry. */
    method ExtractEmotion(text: string, sentences: seq<seq<string>>) returns (emotions: seq<Option<Category>>)
      ensures emotions == Matches(annotations, categories, [text] + Flatten(sentences))
    {
      var words := CandidateWords(text, sentences);
      emotions := [];
      var i := 0;
      while i < |annotations|
        invariant 0 <= i <= |annotations|
        invariant emotions == Matches(annotations[..i], categories, words)
      {
        var entry := annotations[i];
        ghost var before := emotions;
        var j := 0;
        while j < |words|
          invariant 0 <= j <= |words|
          invariant entry.word !in words[..j]
          invariant emotions == before
        {
          if words[j] == entry.word {
            var k := 0;
            while k < |entry.tags|
              invariant 0 <= k <= |entry.tags|
              invariant emotions == before + TagCategories(entry.tags[..k], categories)
            {
              emotions := emotions + [Get(categories, [entry.tags[k]])];
              assert TagCategories(entry.tags[..k + 1], categories) ==
                     TagCategories(entry.tags[..k], categories) + [Get(categories, [entry.tags[k]])];
              k := k + 1;
            }
            assert entry.tags[..k] == entry.tags;
            break;
          }
          assert words[..j + 1] == words[..j] + [words[j]];
          j := j + 1;
        }
        assert words[..|words|] == words;
        assert annotations[..i + 1][..i] == annotations[..i];
        assert emotions == Matches(annotations[..i + 1], categories, words);
        i := i + 1;
      }
      assert annotations[..i] == annotations;
    }
  }

  /** Builds an analyzer from the two files' records, annotation file first;
      the first failure is the one raised. */
  method NewEmotionAnalyzer(annotationRows: seq<Row>, categoryRows: seq<Row>) returns (r: Result<EmotionAnalyzer>)
    ensures r.Ok? <==>
      annotationRows != [] && WellFormedRows(annotationRows[1..]) &&
      categoryRows != [] && WellFormedRows(categoryRows[1..])
    ensures r.Ok? ==>
      fresh(r.value) &&
      r.value.annotations == AnnotationTable(annotationRows[1..]) &&
      r.value.categories == CategoryTable(categoryRows[1..])
    ensures annotationRows == [] ==> r == Err(StopIteration)
    ensures annotationRows != [] && !WellFormedRows(annotationRows[1..]) ==> r == Err(IndexError)
    ensures annotationRows != [] && WellFormedRows(annotationRows[1..]) && categoryRows == [] ==>
      r == Err(StopIteration)
    ensures (annotationRows != [] && WellFormedRows(annotationRows[1..]) &&
             categoryRows != [] && !WellFormedRows(categoryRows[1..])) ==>
      r == Err(IndexError)
  {
    var annotations := LoadAnnotations(annotationRows);
    if annotations.Err? {
      return Err(annotations.error);
    }
    var categories := LoadCategories(categoryRows);
    if categories.Err? {
      return Err(categories.error);
    }
    var analyzer := new EmotionAnalyzer(annotations.value, categories.value);
    return Ok(analyzer);
  }
}
