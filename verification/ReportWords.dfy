/** The fixed words of the report: the captions and section titles that the reader knows are found by their
    text, and it takes none of the writer's other words for one of them. */
module ReportWords {
  import opened Common
  import opened PlainText
  import opened ReportLines
  import opened ReportParser

  // ---------- keys, captions and titles ----------

  /** Printable ASCII other than the colon. */
  predicate KeyChars(s: string) {
    forall c <- s :: ' ' <= c <= '~' && c != ':'
  }

  lemma KeyCharsAreFree(s: string)
    requires KeyChars(s)
    ensures OneLine(s) && ':' !in s
  {
  }

  lemma CaptionChars(caption: Caption)
    ensures KeyChars(CaptionText(caption))
  {
  }

  lemma CaptionsAreKeys(caption: Caption)
    ensures ':' !in CaptionText(caption) && OneLine(CaptionText(caption))
  {
    CaptionChars(caption);
    KeyCharsAreFree(CaptionText(caption));
  }

  lemma HeadChars(head: Head)
    ensures KeyChars(HeadText(head))
  {
  }

  lemma {:induction false} TitlesHaveNoColon(heads: seq<Head>, title: string)
    requires ':' in title
    ensures FirstHead(heads, title) == None
  {
    if heads != [] {
      HeadChars(heads[0]);
      KeyCharsAreFree(HeadText(heads[0]));
      TitlesHaveNoColon(heads[1..], title);
    }
  }

  lemma HasCaptionIff(key: string, rest: string, caption: Caption)
    requires ':' !in key
    ensures HasCaption(key + ":" + rest, caption) <==> key == CaptionText(caption)
  {
    var line, text := key + ":" + rest, CaptionText(caption);
    CaptionsAreKeys(caption);
    ColonAfterKey(key, rest);
    if StartsWith(line, text + ":") {
      assert line == text + ":" + line[|text| + 1..];
      ColonAfterKey(text, line[|text| + 1..]);
      assert line[..|key|] == key;
      assert line[..|text|] == text;
    }
    if key == text {
      assert line[..|text| + 1] == text + ":";
    }
  }

  lemma {:induction false} CaptionByKey(captions: seq<Caption>, key: string, rest: string)
    requires ':' !in key
    ensures FirstCaption(captions, key + ":" + rest) == FirstKey(captions, key)
  {
    if captions != [] {
      HasCaptionIff(key, rest, captions[0]);
      CaptionByKey(captions[1..], key, rest);
    }
  }

  lemma CaptionTextsDiffer(a: Caption, b: Caption)
    requires a != b
    ensures CaptionText(a) != CaptionText(b)
  {
    assert CaptionText(a)[0] != CaptionText(b)[0] || CaptionText(a)[1] != CaptionText(b)[1];
  }

  lemma {:induction false} CaptionsAreFound(captions: seq<Caption>, caption: Caption)
    requires caption in captions
    ensures FirstKey(captions, CaptionText(caption)) == Some(caption)
  {
    if captions[0] != caption {
      CaptionTextsDiffer(captions[0], caption);
      assert captions == [captions[0]] + captions[1..];
      CaptionsAreFound(captions[1..], caption);
    }
  }

  lemma AllCaptionsListed(caption: Caption)
    ensures caption in CAPTIONS
  {
    assert CAPTIONS[0].EventsLoaded? && CAPTIONS[1].RuntimeStatus? && CAPTIONS[2].Simulation?;
    assert CAPTIONS[3].SchedulerMode? && CAPTIONS[4].ConfiguredDuration? && CAPTIONS[5].ObservedDuration?;
  }

  lemma {:induction false} NoKeyStarts(captions: seq<Caption>, key: string)
    requires key != "" && key[0] !in "ERSCO"
    ensures FirstKey(captions, key) == None
  {
    if captions != [] {
      NoCaptionStarts(captions[0]);
      NoKeyStarts(captions[1..], key);
    }
  }

  lemma NoCaptionStarts(caption: Caption)
    ensures CaptionText(caption)[0] in "ERSCO"
  {
  }

  /** A key that begins like no caption is free. */
  lemma FreeByFirst(key: string)
    requires Neat(key) && OneLine(key) && ':' !in key && key[0] !in "ERSCO"
    ensures FreeKey(key)
  {
    NoKeyStarts(CAPTIONS, key);
  }

  // ---------- fixed texts ----------

  lemma HeadsAreNeat(head: Head)
    ensures Neat(HeadText(head))
  {
  }

  lemma HeadTextsDiffer(a: Head, b: Head)
    requires a != b
    ensures HeadText(a) != HeadText(b)
  {
    assert |HeadText(a)| != |HeadText(b)| || HeadText(a)[0] != HeadText(b)[0];
  }

  lemma {:induction false} HeadsAreFound(heads: seq<Head>, head: Head)
    requires head in heads
    ensures FirstHead(heads, HeadText(head)) == Some(head)
  {
    if heads[0] != head {
      HeadTextsDiffer(heads[0], head);
      assert heads == [heads[0]] + heads[1..];
      HeadsAreFound(heads[1..], head);
    }
  }

  lemma AllHeadsListed(head: Head)
    ensures head in HEADS
  {
    assert HEADS[0].EventHead? && HEADS[1].SeverityHead? && HEADS[2].TaskHead? && HEADS[3].MessageHead?;
    assert HEADS[4].CauseHead? && HEADS[5].FaultHead? && HEADS[6].WatchdogHead? && HEADS[7].FailureHead?;
    assert HEADS[8].DetectorHead?;
  }

  lemma HeadsAreTitles(head: Head)
    ensures Neat(HeadText(head)) && ':' !in HeadText(head) && HeaderOf(HeadText(head)) == Some(head)
  {
    AllHeadsListed(head);
    HeadsAreFound(HEADS, head);
    HeadsAreNeat(head);
    HeadChars(head);
    KeyCharsAreFree(HeadText(head));
  }

  /** Every word begins and ends neatly. */
  lemma WordsAreNeat(word: Word)
    ensures Neat(WordText(word)) && WordText(word)[0] != '-'
  {
  }

  predicate IsLongWord(word: Word) {
    word.Title? || word.AnomalyTitle? || word.OverallClass? || word.HighestScore? || word.TopDrivers?
  }

  lemma TitleIsKey()
    ensures KeyChars(WordText(Title))
  {
  }

  lemma AnomalyTitleIsKey()
    ensures KeyChars(WordText(AnomalyTitle))
  {
  }

  lemma OtherLongWordsAreKeys(word: Word)
    requires word.OverallClass? || word.HighestScore? || word.TopDrivers?
    ensures KeyChars(WordText(word))
  {
    match word
    case OverallClass => assert KeyChars(WordText(OverallClass));
    case HighestScore => assert KeyChars(WordText(HighestScore));
    case TopDrivers => assert KeyChars(WordText(TopDrivers));
  }

  lemma LongWordsAreKeys(word: Word)
    requires IsLongWord(word)
    ensures KeyChars(WordText(word))
  {
    match word
    case Title => TitleIsKey();
    case AnomalyTitle => AnomalyTitleIsKey();
    case _ => OtherLongWordsAreKeys(word);
  }

  lemma TopWordsAreKeys(word: Word)
    requires IsTopWord(word) && !IsLongWord(word)
    ensures KeyChars(WordText(word))
  {
  }

  lemma OtherWordsAreKeys(word: Word)
    requires !IsTopWord(word)
    ensures KeyChars(WordText(word))
  {
  }

  lemma WordsAreKeys(word: Word)
    ensures OneLine(WordText(word)) && ':' !in WordText(word)
  {
    if IsLongWord(word) {
      LongWordsAreKeys(word);
    } else if IsTopWord(word) {
      TopWordsAreKeys(word);
    } else {
      OtherWordsAreKeys(word);
    }
    KeyCharsAreFree(WordText(word));
  }

  lemma WordIsNoCaption(word: Word, caption: Caption)
    ensures WordText(word) != CaptionText(caption)
  {
    assert WordText(word)[0] != CaptionText(caption)[0] || WordText(word)[1] != CaptionText(caption)[1];
  }

  lemma WordIsNoHead(word: Word, head: Head)
    ensures WordText(word) != HeadText(head)
  {
    var a, b := WordText(word), HeadText(head);
    assert |a| != |b| || a[0] != b[0];
  }

  lemma {:induction false} WordsAreNoCaptions(captions: seq<Caption>, word: Word)
    ensures FirstKey(captions, WordText(word)) == None
  {
    if captions != [] {
      WordIsNoCaption(word, captions[0]);
      WordsAreNoCaptions(captions[1..], word);
    }
  }

  lemma {:induction false} WordsAreNoHeads(heads: seq<Head>, word: Word)
    ensures FirstHead(heads, WordText(word)) == None
  {
    if heads != [] {
      WordIsNoHead(word, heads[0]);
      WordsAreNoHeads(heads[1..], word);
    }
  }

  /** The reader takes none of the words for a caption or a title of its own. */
  lemma WordsAreFree(word: Word)
    ensures FreeName(WordText(word)) && WordText(word)[0] != '-'
  {
    WordsAreNeat(word);
    WordsAreKeys(word);
    WordsAreNoCaptions(CAPTIONS, word);
    WordsAreNoHeads(HEADS, word);
  }

  lemma {:induction false} RulesArePlain(n: nat)
    ensures |Rule(n)| == n && forall c <- Rule(n) :: c == '='
  {
    if n > 0 {
      RulesArePlain(n - 1);
    }
  }

  lemma RulesAreNeat(n: nat)
    requires n > 0
    ensures Neat(Rule(n)) && OneLine(Rule(n)) && ':' !in Rule(n) && Rule(n)[0] != '-'
  {
    RulesArePlain(n);
    var text := Rule(n);
    assert text[0] in text && text[|text| - 1] in text;
  }

  lemma MessageKeysAreFree(key: MessageKey)
    ensures FreeKey(MessageText(key))
  {
    MessageChars(key);
    KeyCharsAreFree(MessageText(key));
    FreeByFirst(MessageText(key));
  }

  lemma MessageChars(key: MessageKey)
    ensures Neat(MessageText(key)) && KeyChars(MessageText(key)) && MessageText(key)[0] !in "ERSCO"
  {
  }

  lemma MetricKeysAreFree(key: MetricKey)
    ensures FreeKey(MetricText(key))
  {
    MetricChars(key);
    KeyCharsAreFree(MetricText(key));
    FreeByFirst(MetricText(key));
  }

  lemma MetricChars(key: MetricKey)
    ensures Neat(MetricText(key)) && KeyChars(MetricText(key)) && MetricText(key)[0] !in "ERSCO"
  {
  }

  lemma AverageKeyIsFree()
    ensures FreeKey(AVERAGE_KEY)
  {
    assert Neat(AVERAGE_KEY) && KeyChars(AVERAGE_KEY);
    KeyCharsAreFree(AVERAGE_KEY);
    FreeByFirst(AVERAGE_KEY);
  }

  lemma CaptionsAreNeat(caption: Caption)
    ensures Neat(CaptionText(caption))
  {
  }
}
