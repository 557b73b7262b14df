/**
 * The `App` component (src/App.jsx): five pieces of state changed by event
 * handlers, and the effect that resets the word inputs whenever the word
 * count changes.
 *
 * The component is a class whose fields are the state; each handler is a
 * method. The effect is its own transition, `WordCountEffect`, which a
 * handler runs after its commit when that commit changed `wordCount`. The
 * generation call is split at its `await`: `BeginGenerate` runs up to the
 * request, `CompleteGenerate` takes the wrapper's outcome as input.
 *
 * `words` holds JavaScript values: the inputs only ever write strings, but a
 * restored draft may put any JSON array there.
 */
module App {
  import opened Wrappers
  import opened JsStrings
  import opened JsValues
  import opened Draft

  const GeneratingStatus: string := "生成中..."
  const EmptyTextStatus: string := "生成は成功したが、本文が空。"
  const DoneStatus: string := "生成完了。"
  const FailedStatus: string := "生成でエラー（Functions未起動／ネットワーク）。"
  const CopiedStatus: string := "コピーした。"
  const CopyFailedStatus: string := "コピーに失敗した。"
  const SpeakingStatus: string := "読み上げ中..."
  const StoppedStatus: string := "読み上げを停止した。"
  const SavedStatus: string := "下書きを保存した。"
  const NoDraftStatus: string := "下書きがない。"
  const RestoredStatus: string := "下書きを復元した。"
  const ClearedStatus: string := "下書きを削除した。"

  /** The largest length `Array(n)` accepts. */
  const MaxArrayLength: int := 0xFFFF_FFFF

  /** "Enter all {n} words." */
  function NeedWordsStatus(wordCount: int): string {
    NeedWordsPrefix + IntToString(wordCount) + NeedWordsSuffix
  }

  const NeedWordsPrefix: string := "単語を"
  const NeedWordsSuffix: string := "個すべて入力して。"

  /** The counts the selector offers. */
  predicate IsWordCount(n: int) {
    n == 3 || n == 5 || n == 7
  }

  /** `Array(n).fill('')`. */
  function Empties(n: nat): (r: seq<JsValue>)
    ensures |r| == n && forall i :: 0 <= i < n ==> r[i] == Str("")
  {
    seq(n, _ => Str(""))
  }

  /** `Array(Number(x)).fill('')`: `None` is the RangeError for a length that is not a valid array length. */
  function ArrayOfEmpties(count: NumberValue): (r: Option<seq<JsValue>>)
    ensures r.Some? <==> count.Integral? && 0 <= count.i <= MaxArrayLength
    ensures r.Some? ==> |r.value| == count.i && forall i :: 0 <= i < |r.value| ==> r.value[i] == Str("")
  {
    if count.Integral? && 0 <= count.i <= MaxArrayLength then Some(Empties(count.i)) else None
  }

  /** `w.trim().length > 0`. */
  predicate NonBlank(w: string) {
    Trim(w) != ""
  }

  /** `a` is `b` with some entries left out, the rest in their order. */
  predicate Subsequence(a: seq<string>, b: seq<string>) {
    if a == [] then true
    else if b == [] then false
    else if a[0] == b[0] then Subsequence(a[1..], b[1..])
    else Subsequence(a, b[1..])
  }

  /** The filter on strings: the non-blank entries. */
  function Keep(ws: seq<string>): (r: seq<string>)
    ensures |r| <= |ws|
    ensures forall j :: 0 <= j < |r| ==> NonBlank(r[j])
  {
    if ws == [] then []
    else if NonBlank(ws[0]) then [ws[0]] + Keep(ws[1..])
    else Keep(ws[1..])
  }

  /**
   * `words.filter(w => w.trim().length > 0)`: the non-blank entries, or `None`
   * for the TypeError `trim` raises on an entry that is not a string.
   */
  function Filled(words: seq<JsValue>): (r: Option<seq<string>>)
    ensures r.Some? <==> forall i :: 0 <= i < |words| ==> words[i].Str?
    ensures r.Some? ==> |r.value| <= |words| && forall j :: 0 <= j < |r.value| ==> NonBlank(r.value[j])
  {
    if forall i :: 0 <= i < |words| ==> words[i].Str? then Some(Keep(Texts(words))) else None
  }

  /** With no blank entry the filter keeps every word, as entered. */
  lemma {:induction false} KeepKeepsAll(ws: seq<string>)
    requires forall i :: 0 <= i < |ws| ==> NonBlank(ws[i])
    ensures Keep(ws) == ws
  {
    if ws != [] {
      KeepKeepsAll(ws[1..]);
    }
  }

  /** A blank entry makes the filter drop at least one word. */
  lemma {:induction false} KeepDropsBlank(ws: seq<string>)
    requires exists i :: 0 <= i < |ws| && !NonBlank(ws[i])
    ensures |Keep(ws)| < |ws|
  {
    if NonBlank(ws[0]) {
      var i :| 0 <= i < |ws| && !NonBlank(ws[i]);
      assert ws[1..][i - 1] == ws[i];
      KeepDropsBlank(ws[1..]);
    }
  }

  /** The filter keeps the non-blank words in the order they were entered. */
  lemma {:induction false} KeepKeepsOrder(ws: seq<string>)
    ensures Subsequence(Keep(ws), ws)
  {
    if ws != [] {
      KeepKeepsOrder(ws[1..]);
      var rest := Keep(ws[1..]);
      if !NonBlank(ws[0]) && rest != [] {
        assert rest[0] != ws[0];
      }
    }
  }

  /** Filtering a concatenation filters each part. */
  lemma {:induction false} KeepAppend(a: seq<string>, b: seq<string>)
    ensures Keep(a + b) == Keep(a) + Keep(b)
  {
    if a == [] {
      assert a + b == b;
    } else {
      assert (a + b)[0] == a[0];
      assert (a + b)[1..] == a[1..] + b;
      KeepAppend(a[1..], b);
    }
  }

  /** The positions of the non-blank entries. */
  function NonBlankAt(ws: seq<string>): set<nat> {
    set i: nat | i < |ws| && NonBlank(ws[i])
  }

  /** A word appended at the end adds its own position when it is non-blank. */
  lemma NonBlankAtSnoc(init: seq<string>, w: string)
    ensures |NonBlankAt(init + [w])| == |NonBlankAt(init)| + (if NonBlank(w) then 1 else 0)
  {
    var ws := init + [w];
    if NonBlank(w) {
      assert NonBlankAt(ws) == NonBlankAt(init) + {|init|};
    } else {
      assert NonBlankAt(ws) == NonBlankAt(init);
    }
  }

  /**
   * The filter keeps one word per non-blank entry: with `KeepKeepsOrder` this
   * pins it down, no non-blank entry is dropped.
   */
  lemma {:induction false} KeepCountsNonBlank(ws: seq<string>)
    ensures |Keep(ws)| == |NonBlankAt(ws)|
  {
    if ws != [] {
      var init := ws[..|ws| - 1];
      var w := ws[|ws| - 1];
      assert ws == init + [w];
      KeepAppend(init, [w]);
      assert [w][1..] == [];
      KeepCountsNonBlank(init);
      NonBlankAtSnoc(init, w);
    }
  }

  /** Every input is a non-blank string. */
  predicate AllNonBlank(words: seq<JsValue>) {
    forall i :: 0 <= i < |words| ==> words[i].Str? && NonBlank(words[i].s)
  }

  /**
   * On string inputs the filter keeps as many words as there are inputs
   * exactly when none is blank, and then keeps them all as entered; in any
   * case it keeps every non-blank one, in their order.
   */
  lemma FilledAll(words: seq<JsValue>)
    requires forall i :: 0 <= i < |words| ==> words[i].Str?
    ensures |Filled(words).value| == |words| <==> AllNonBlank(words)
    ensures |Filled(words).value| == |words| ==> Filled(words).value == Texts(words)
    ensures Subsequence(Filled(words).value, Texts(words))
    ensures |Filled(words).value| == |NonBlankAt(Texts(words))|
  {
    var ws := Texts(words);
    KeepKeepsOrder(ws);
    KeepCountsNonBlank(ws);
    if AllNonBlank(words) {
      KeepKeepsAll(ws);
    } else {
      var i :| 0 <= i < |words| && !NonBlank(words[i].s);
      assert !NonBlank(ws[i]);
      KeepDropsBlank(ws);
    }
  }

  /** The component's state at one moment. */
  datatype View = View(wordCount: int, words: seq<JsValue>, result: string, status: string, isGenerating: bool)

  /** The state after mounting: three empty words, nothing else set. */
  const Initial: View := View(3, Empties(3), "", "", false)

  /** The effect at App.jsx:28-31, run after a commit: new empty inputs when `wordCount` changed. */
  function Effect(previous: int, v: View): (r: View)
    requires IsWordCount(v.wordCount)
    ensures r.wordCount == v.wordCount && r.result == v.result && r.status == v.status
    ensures r.isGenerating == v.isGenerating
    ensures r.words == if v.wordCount != previous then Empties(v.wordCount) else v.words
  {
    if v.wordCount != previous then v.(words := Empties(v.wordCount)) else v
  }

  /**
   * `handleLoadDraft` followed by the effect, on a loaded value `draft`.
   * `None` is an exception, after which nothing has changed: the TypeError at
   * `Number(draft.count)` for a count with no primitive form, or the
   * RangeError at `Array(count)`.
   */
  function LoadStep(v: View, draft: JsValue): Option<View>
    requires IsWordCount(v.wordCount)
  {
    if !Truthy(draft) then Some(v.(status := NoDraftStatus))
    else if !Convertible(Prop(draft, "count")) then None
    else
      var count := ToNumber(Prop(draft, "count"));
      var newCount := if count.Integral? && IsWordCount(count.i) then count.i else v.wordCount;
      var stored := Prop(draft, "words");
      var newWords := if stored.Arr? then Some(stored.items) else ArrayOfEmpties(count);
      match newWords
      case None => None
      case Some(ws) =>
        var storedResult := Prop(draft, "result");
        var committed := View(newCount, ws, if storedResult.Str? then storedResult.s else "",
                              RestoredStatus, v.isGenerating);
        Some(Effect(v.wordCount, committed))
  }

  /** The selector's options read as the counts they show, and show the counts they read as. */
  lemma SelectorValue(value: string)
    requires value == "3" || value == "5" || value == "7"
    ensures ToNumber(Str(value)).Integral? && IsWordCount(ToNumber(Str(value)).i)
    ensures Display(Num(ToNumber(Str(value)).i)) == value
  {
    var n := if value == "3" then 3 else if value == "5" then 5 else 7;
    assert value == IntToString(n);
    NumberOfDisplayedInteger(n);
  }

  /** How `handleGenerate` ends before its `await`. */
  datatype Start =
    | Threw          // a word is not a string: `trim` throws, nothing changes
    | Incomplete     // fewer non-blank words than `wordCount`: status asks for all of them
    | Sending(words: seq<string>)

  class App {
    var wordCount: int
    var words: seq<JsValue>
    var result: string
    var status: string
    var isGenerating: bool
    /** The storage behind the `useDraft` hook. */
    const drafts: DraftStore

    ghost predicate Valid()
      reads this
    {
      IsWordCount(wordCount)
    }

    function Snapshot(): View
      reads this
    {
      View(wordCount, words, result, status, isGenerating)
    }

    /** The state after the first render and the mount-time run of the effect. */
    constructor (drafts: DraftStore)
      ensures Valid() && Snapshot() == Initial && this.drafts == drafts
    {
      wordCount := 3;
      words := [Str(""), Str(""), Str("")];
      result := "";
      status := "";
      isGenerating := false;
      this.drafts := drafts;
      new;
      words := Empties(wordCount);
    }

    /** The effect: after a commit that changed `wordCount`, every input is emptied. */
    method WordCountEffect(previous: int)
      requires Valid()
      modifies this`words
      ensures words == if wordCount != previous then Empties(wordCount) else old(words)
    {
      if wordCount != previous {
        words := Empties(wordCount);
      }
    }

    /** `handleWordChange(index, value)`: only entry `index` changes. */
    method ChangeWord(index: nat, value: string)
      requires index < |words|
      modifies this`words
      ensures |words| == |old(words)| && words[index] == Str(value)
      ensures forall i :: 0 <= i < |words| && i != index ==> words[i] == old(words[i])
    {
      var newWords := words;
      newWords := newWords[index := Str(value)];
      words := newWords;
    }

    /** `handleWordCountChange`: the selector's value becomes the count and the status is cleared. */
    method ChangeWordCount(value: string)
      requires value == "3" || value == "5" || value == "7"
      requires Valid()
      modifies this`wordCount, this`status, this`words
      ensures Valid() && ToNumber(Str(value)) == Integral(wordCount) && status == ""
      ensures words == if wordCount != old(wordCount) then Empties(wordCount) else old(words)
    {
      SelectorValue(value);
      var count := ToNumber(Str(value));
      var previous := wordCount;
      wordCount := count.i;
      status := "";
      WordCountEffect(previous);
    }

    /** `handleGenerate` up to the request. */
    method BeginGenerate() returns (start: Start)
      requires Valid() && !isGenerating
      modifies this`status, this`isGenerating
      ensures Filled(words).None? ==> start == Threw && status == old(status) && !isGenerating
      ensures Filled(words).Some? && |Filled(words).value| != wordCount ==>
        start == Incomplete && status == NeedWordsStatus(wordCount) && !isGenerating
      ensures Filled(words).Some? && |Filled(words).value| == wordCount ==>
        start == Sending(Filled(words).value) && status == GeneratingStatus && isGenerating
    {
      var filled := Filled(words);
      if filled.None? {
        return Threw;
      }
      if |filled.value| != wordCount {
        status := NeedWordsStatus(wordCount);
        return Incomplete;
      }
      isGenerating := true;
      status := GeneratingStatus;
      start := Sending(filled.value);
    }

    /** `handleGenerate` after the wrapper settled: the text or the failure, and the flag released. */
    method CompleteGenerate(outcome: Result<string, string>)
      requires isGenerating
      modifies this`result, this`status, this`isGenerating
      ensures !isGenerating
      ensures outcome.Ok? ==>
        result == outcome.value && status == (if Trim(outcome.value) == "" then EmptyTextStatus else DoneStatus)
      ensures outcome.Err? ==> result == old(result) && status == FailedStatus
    {
      match outcome {
        case Ok(text) =>
          result := text;
          if |Trim(text)| == 0 {
            status := EmptyTextStatus;
          } else {
            status := DoneStatus;
          }
        case Err(_) =>
          status := FailedStatus;
      }
      isGenerating := false;
    }

    /** The result text area's `setResult`. */
    method EditResult(value: string)
      modifies this`result
      ensures result == value
    {
      result := value;
    }

    /** `handleCopy`: nothing for a blank result; otherwise the trimmed text and the clipboard's outcome. */
    method Copy(writeSucceeded: bool) returns (written: Option<string>)
      modifies this`status
      ensures Trim(result) == "" ==> written == None && status == old(status)
      ensures Trim(result) != "" ==>
        written == Some(Trim(result)) && status == (if writeSucceeded then CopiedStatus else CopyFailedStatus)
    {
      var text := Trim(result);
      if text == "" {
        return None;
      }
      written := Some(text);
      if writeSucceeded {
        status := CopiedStatus;
      } else {
        status := CopyFailedStatus;
      }
    }

    /** `handleSpeak`: nothing for a blank result; otherwise the trimmed text is spoken. */
    method Speak() returns (spoken: Option<string>)
      modifies this`status
      ensures Trim(result) == "" ==> spoken == None && status == old(status)
      ensures Trim(result) != "" ==> spoken == Some(Trim(result)) && status == SpeakingStatus
    {
      var text := Trim(result);
      if text == "" {
        return None;
      }
      spoken := Some(text);
      status := SpeakingStatus;
    }

    /** `handleStop`. */
    method Stop()
      modifies this`status
      ensures status == StoppedStatus
    {
      status := StoppedStatus;
    }

    /** `handleSaveDraft`: the current count, words and result go to the store. */
    method SaveDraft()
      modifies drafts, this`status
      ensures drafts.storage == Saved(old(drafts.storage), wordCount, words, result)
      ensures status == SavedStatus
    {
      drafts.SaveDraft(wordCount, words, result);
      status := SavedStatus;
    }

    /**
     * `handleLoadDraft` and the effect its commit triggers; `threw` is the
     * TypeError at `Number(draft.count)` or the RangeError at `Array(count)`.
     */
    method LoadDraft() returns (threw: bool)
      requires Valid()
      modifies this`wordCount, this`words, this`result, this`status
      ensures Valid()
      ensures threw <==> LoadStep(old(Snapshot()), Loaded(drafts.storage)).None?
      ensures !threw ==> Snapshot() == LoadStep(old(Snapshot()), Loaded(drafts.storage)).value
      ensures threw ==> Snapshot() == old(Snapshot())
    {
      var draft := drafts.LoadDraft();
      if !Truthy(draft) {
        status := NoDraftStatus;
        return false;
      }
      if !Convertible(Prop(draft, "count")) {
        return true;
      }
      var previous := wordCount;
      var count := ToNumber(Prop(draft, "count"));
      if count.Integral? && IsWordCount(count.i) {
        wordCount := count.i;
      }
      var stored := Prop(draft, "words");
      if stored.Arr? {
        words := stored.items;
      } else {
        var emptied := ArrayOfEmpties(count);
        if emptied.None? {
          return true;
        }
        words := emptied.value;
      }
      var storedResult := Prop(draft, "result");
      if storedResult.Str? {
        result := storedResult.s;
      } else {
        result := "";
      }
      status := RestoredStatus;
      WordCountEffect(previous);
      threw := false;
    }

    /** `handleClearDraft`. */
    method ClearDraft()
      modifies drafts, this`status
      ensures drafts.storage == Cleared(old(drafts.storage))
      ensures status == ClearedStatus
    {
      drafts.ClearDraft();
      status := ClearedStatus;
    }
  }

  // ---------------------------------------------------------------------------
  // Properties of the handlers, stated on the state they produce.

  /** The mount-time run of the effect keeps the initial three empty words. */
  lemma InitialWordsMatchCount()
    ensures Initial.words == [Str(""), Str(""), Str("")]
    ensures |Initial.words| == Initial.wordCount && IsWordCount(Initial.wordCount)
  {
  }

  /**
   * The status asking for words names the count, e.g. "単語を5個すべて入力して。":
   * what stands between the fixed prefix and suffix reads back as the count.
   */
  lemma NeedWordsStatusNamesCount(n: int)
    ensures var s := NeedWordsStatus(n);
      var (pre, post) := (NeedWordsPrefix, NeedWordsSuffix);
      && |pre| + |post| < |s| && pre <= s && s[|s| - |post|..] == post
      && StringToNumber(s[|pre|..|s| - |post|]) == Integral(n)
    ensures NeedWordsStatus(5) == "単語を5個すべて入力して。"
  {
    assert NeedWordsStatus(5) == "単語を5個すべて入力して。" by {
      assert NatToString(5) == "5";
    }
    var (pre, d, post) := (NeedWordsPrefix, IntToString(n), NeedWordsSuffix);
    var s := pre + d + post;
    assert s[..|pre|] == pre;
    assert s[|pre|..|s| - |post|] == d;
    assert s[|s| - |post|..] == post;
    assert d == Display(Num(n));
    NumberOfDisplayedInteger(n);
  }

  /** Loading when no draft is stored (or a falsy one) only sets the status. */
  lemma LoadWithoutDraft(v: View, draft: JsValue)
    requires IsWordCount(v.wordCount) && !Truthy(draft)
    ensures LoadStep(v, draft) == Some(v.(status := "下書きがない。"))
  {
  }

  /** A draft saved with the current count restores its words and result as they were. */
  lemma RestoreSameCount(v: View, words: seq<JsValue>, result: string)
    requires IsWordCount(v.wordCount)
    ensures LoadStep(v, Payload(v.wordCount, words, result))
      == Some(v.(words := words, result := result, status := "下書きを復元した。"))
  {
  }

  /**
   * A draft saved with another valid count restores the count and the result,
   * but the effect that the count change triggers then replaces the restored
   * words with empty inputs.
   */
  lemma RestoreOtherCountLosesWords(v: View, count: int, words: seq<JsValue>, result: string)
    requires IsWordCount(v.wordCount) && IsWordCount(count) && count != v.wordCount
    ensures LoadStep(v, Payload(count, words, result))
      == Some(View(count, Empties(count), result, "下書きを復元した。", v.isGenerating))
  {
  }

  /**
   * A stored count outside {3, 5, 7} is not restored; with non-array words the
   * inputs become `Array(count)` of empty strings, whose length need not match
   * the kept `wordCount`.
   */
  lemma OddCountGivesMismatchedInputs(v: View, draft: JsValue, n: int)
    requires IsWordCount(v.wordCount) && Truthy(draft)
    requires Convertible(Prop(draft, "count"))
    requires ToNumber(Prop(draft, "count")) == Integral(n) && !IsWordCount(n) && 0 <= n <= MaxArrayLength
    requires !Prop(draft, "words").Arr?
    ensures LoadStep(v, draft).Some?
    ensures var w := LoadStep(v, draft).value;
      w.wordCount == v.wordCount && w.words == Empties(n) && |w.words| != w.wordCount
  {
  }

  /** A stored count that is not a valid array length, with non-array words, throws and changes nothing. */
  lemma BadCountThrows(v: View, draft: JsValue)
    requires IsWordCount(v.wordCount) && Truthy(draft) && !Prop(draft, "words").Arr?
    requires Convertible(Prop(draft, "count"))
    requires var c := ToNumber(Prop(draft, "count")); !(c.Integral? && 0 <= c.i <= MaxArrayLength)
    ensures LoadStep(v, draft) == None
  {
  }

  /**
   * A stored count with no primitive form, such as `{"toString": 1}`, makes
   * `Number(draft.count)` throw: nothing changes, whatever the words and result.
   */
  lemma UnconvertibleCountThrows(v: View, draft: JsValue)
    requires IsWordCount(v.wordCount) && Truthy(draft) && !Convertible(Prop(draft, "count"))
    ensures LoadStep(v, draft) == None
  {
  }

  /** `{count: {toString: 1}, words: ["a"], result: "r"}` is not restored. */
  lemma ObjectCountExample(v: View)
    requires IsWordCount(v.wordCount)
    ensures LoadStep(v, Obj(map["count" := Obj(map["toString" := Num(1)]),
      "words" := Arr([Str("a")]), "result" := Str("r")])) == None
  {
    var draft := Obj(map["count" := Obj(map["toString" := Num(1)]), "words" := Arr([Str("a")]), "result" := Str("r")]);
    assert Prop(draft, "count") == Obj(map["toString" := Num(1)]);
    UnconvertibleCountThrows(v, draft);
  }

  /** A non-string `result` in the draft is restored as "". */
  lemma NonStringResultRestoredEmpty(v: View, draft: JsValue)
    requires IsWordCount(v.wordCount) && Truthy(draft) && !Prop(draft, "result").Str?
    requires LoadStep(v, draft).Some?
    ensures LoadStep(v, draft).value.result == ""
  {
  }

  /** Saving and then loading through the store gives back the state that was saved. */
  lemma SaveThenLoadRestores(v: View, storage: map<string, JsValue>)
    requires IsWordCount(v.wordCount)
    ensures LoadStep(v, Loaded(Saved(storage, v.wordCount, v.words, v.result)))
      == Some(v.(status := "下書きを復元した。"))
  {
    LoadAfterSave(storage, v.wordCount, v.words, v.result);
    RestoreSameCount(v, v.words, v.result);
  }

  /** After clearing, loading finds no draft. */
  lemma ClearThenLoadFindsNothing(v: View, storage: map<string, JsValue>)
    requires IsWordCount(v.wordCount)
    ensures LoadStep(v, Loaded(Cleared(storage))) == Some(v.(status := "下書きがない。"))
  {
    ClearIsFinalAndIdempotent(storage);
  }

  /** The two handlers in a row on one component: save, then load, restores count, words and result. */
  method SaveThenLoad(app: App)
    requires app.Valid()
    modifies app, app.drafts
    ensures app.wordCount == old(app.wordCount) && app.words == old(app.words) && app.result == old(app.result)
    ensures app.status == RestoredStatus
  {
    app.SaveDraft();
    ghost var saved := app.Snapshot();
    var threw := app.LoadDraft();
    SaveThenLoadRestores(saved, old(app.drafts.storage));
  }
}
