/** `parse_gemini_response` (server.py:288-316): reads the classifier's
    reply line by line for an "INTENT:" line, a "PRODUCT_ID:" line and a
    "RESPONSE:" section, falling back to intent CHAT, no product and the
    whole reply as the message. */
module ReplyParser {

  import opened Wrappers
  import opened Text

  /** The triple the parser returns: intent, product id, message. */
  datatype Reply = Reply(intent: string, productId: Option<DigitString>, message: string)

  /** The variables the parsing loop updates. */
  datatype ScanState = ScanState(intent: string, productId: Option<DigitString>,
                                 messageLines: seq<string>, inResponse: bool)

  const DefaultIntent: string := "CHAT"
  const IntentKey: string := "INTENT:"
  const ProductKey: string := "PRODUCT_ID:"
  const ResponseKey: string := "RESPONSE:"

  /** A keyword that ends in its only colon. */
  predicate ColonKeyword(keyword: string) {
    |keyword| >= 1 && keyword[|keyword| - 1] == ':' && ':' !in keyword[..|keyword| - 1]
  }

  lemma KeywordsEndInTheirOnlyColon()
    ensures ColonKeyword(IntentKey) && ColonKeyword(ProductKey) && ColonKeyword(ResponseKey)
  {
    assert IntentKey[..6] == "INTENT";
    assert ProductKey[..10] == "PRODUCT_ID";
    assert ResponseKey[..8] == "RESPONSE";
  }

  const Initial: ScanState := ScanState(DefaultIntent, None, [], false)

  /** A product id the parser hands out: digits only, at least one. */
  type DigitString = s: string | s != [] && AllDigits(s) witness "0"

  /** Which branch of the loop's `if`/`elif` chain a line takes, with the
      value that branch reads from it. */
  datatype Line =
    | IntentLine(intent: string)            // "INTENT:" and the upper-cased value
    | ProductLine(digits: Option<DigitString>) // "PRODUCT_ID:" and the id it yields, if any
    | ResponseLine(rest: string)            // "RESPONSE:" and the text after it
    | TextLine(text: string)                // any other line, stripped

  /** The text after the colon of a keyword line, that is, after the keyword. */
  function AfterColon(stripped: string, keyword: string): (r: string)
    requires ColonKeyword(keyword)
    requires StartsWith(Upper(stripped), keyword)
    ensures r == stripped[|keyword|..]
  {
    AfterKeyword(stripped, keyword);
    AfterFirst(stripped, ':')
  }

  /** The product id a "PRODUCT_ID:" value yields: its digits, unless the
      value is empty, is "NONE" in any case, or has no digits. Since "NONE"
      has no digits, that is: the value's digits whenever it has any, and
      none otherwise; a value of digits only is the id itself. */
  function ProductDigits(pid: string): (r: Option<DigitString>)
    ensures r == if KeepDigits(pid) == [] then None else Some(KeepDigits(pid))
    ensures r.None? <==> forall i :: 0 <= i < |pid| ==> !IsDigit(pid[i])
    ensures pid != [] && AllDigits(pid) ==> r == Some(pid)
  {
    NoneHasNoDigits(pid);
    if Upper(pid) != "NONE" && pid != "" then
      var clean := KeepDigits(pid);
      if clean != "" then Some(clean) else None
    else None
  }

  /** A value that upper-cases to "NONE" has no digit. */
  lemma NoneHasNoDigits(pid: string)
    ensures Upper(pid) == "NONE" ==> forall i :: 0 <= i < |pid| ==> !IsDigit(pid[i])
    ensures pid != [] && AllDigits(pid) ==> Upper(pid) != "NONE"
  {
    if Upper(pid) == "NONE" {
      forall i | 0 <= i < |pid| ensures !IsDigit(pid[i]) {
        assert Upper(pid)[i] in "NONE";
      }
      assert pid != [] ==> !IsDigit(pid[0]);
    }
  }

  /** The keyword tests are made on the stripped, upper-cased line, in the
      order INTENT, PRODUCT_ID, RESPONSE. The intent read is upper case and
      every value read is stripped. */
  function Classify(line: string): (r: Line)
    ensures r.IntentLine? ==> Upper(r.intent) == r.intent
    ensures r.ResponseLine? ==> IsStripped(r.rest)
    ensures r.TextLine? ==> r.text == Strip(line)
  {
    KeywordsEndInTheirOnlyColon();
    var stripped := Strip(line);
    if StartsWith(Upper(stripped), IntentKey) then
      var v := Strip(AfterColon(stripped, IntentKey));
      UpperIdempotent(v);
      IntentLine(Upper(v))
    else if StartsWith(Upper(stripped), ProductKey) then
      ProductLine(ProductDigits(Strip(AfterColon(stripped, ProductKey))))
    else if StartsWith(Upper(stripped), ResponseKey) then
      ResponseLine(Strip(AfterColon(stripped, ResponseKey)))
    else TextLine(stripped)
  }

  /** One turn of the parsing loop. The message lines only grow, by at
      most one line, and once the RESPONSE section is entered it is never
      left. */
  function Step(st: ScanState, line: Line): (r: ScanState)
    ensures st.messageLines <= r.messageLines && |r.messageLines| <= |st.messageLines| + 1
    ensures st.inResponse ==> r.inResponse
    ensures line.TextLine? || line.ResponseLine? ==> r.intent == st.intent && r.productId == st.productId
  {
    match line
    case IntentLine(v) => st.(intent := v)
    case ProductLine(d) => if d.Some? then st.(productId := d) else st
    case ResponseLine(rest) =>
      st.(inResponse := true,
          messageLines := if rest != "" then st.messageLines + [rest] else st.messageLines)
    case TextLine(t) => if st.inResponse then st.(messageLines := st.messageLines + [t]) else st
  }

  /** The loop's variables after reading `lines` in order. */
  function Scan(lines: seq<Line>): ScanState {
    if lines == [] then Initial else Step(Scan(lines[..|lines| - 1]), lines[|lines| - 1])
  }

  /** Each line classified, in order. */
  function ClassifyAll(raw: seq<string>): (r: seq<Line>)
    ensures |r| == |raw|
  {
    if raw == [] then [] else ClassifyAll(raw[..|raw| - 1]) + [Classify(raw[|raw| - 1])]
  }

  lemma {:induction false} ClassifyAllAt(raw: seq<string>, i: nat)
    requires i < |raw|
    ensures ClassifyAll(raw)[i] == Classify(raw[i])
  {
    if i < |raw| - 1 {
      ClassifyAllAt(raw[..|raw| - 1], i);
    }
  }

  /** `response.strip().split('\n')`, each line classified. */
  function ReplyLines(response: string): seq<Line> {
    ClassifyAll(Split(Strip(response), '\n'))
  }

  /** Every classified INTENT line carries an upper-case intent. */
  lemma ClassifiedIntentsUpper(raw: seq<string>)
    ensures forall k :: 0 <= k < |raw| ==>
              (ClassifyAll(raw)[k].IntentLine? ==> Upper(ClassifyAll(raw)[k].intent) == ClassifyAll(raw)[k].intent)
  {
    forall k | 0 <= k < |raw|
      ensures ClassifyAll(raw)[k].IntentLine? ==> Upper(ClassifyAll(raw)[k].intent) == ClassifyAll(raw)[k].intent
    {
      ClassifyAllAt(raw, k);
    }
  }

  /** Every intent the scan can hold is upper case. */
  lemma {:induction false} ScanIntentUpper(lines: seq<Line>)
    requires forall k :: 0 <= k < |lines| ==> (lines[k].IntentLine? ==> Upper(lines[k].intent) == lines[k].intent)
    ensures Upper(Scan(lines).intent) == Scan(lines).intent
  {
    if lines == [] {
      assert Upper(DefaultIntent) == DefaultIntent;
    } else {
      ScanIntentUpper(lines[..|lines| - 1]);
    }
  }

  /** What the parser returns for `response`. Its intent is always upper
      case, so comparing it with "ADD_TO_CART" ignores the case the
      classifier wrote it in. */
  function Parse(response: string): (r: Reply)
    ensures Upper(r.intent) == r.intent
  {
    var lines := ReplyLines(response);
    ClassifiedIntentsUpper(Split(Strip(response), '\n'));
    ScanIntentUpper(lines);
    var st := Scan(lines);
    Reply(st.intent, st.productId,
          if st.messageLines != [] then Join(st.messageLines, " ") else response)
  }

  // ---------------------------------------------------------------------
  // What the parse means
  // ---------------------------------------------------------------------

  /** A line that sets the product id. */
  predicate SetsProduct(line: Line) {
    line.ProductLine? && line.digits.Some?
  }

  /** The lines a line adds to the message once the RESPONSE section has
      begun: nothing for an INTENT or PRODUCT_ID line, the text after
      "RESPONSE:" when there is any, any other line stripped. */
  function Contribution(line: Line): seq<string> {
    match line
    case IntentLine(_) => []
    case ProductLine(_) => []
    case ResponseLine(rest) => if rest != "" then [rest] else []
    case TextLine(t) => [t]
  }

  function Contributions(lines: seq<Line>): seq<string> {
    if lines == [] then [] else Contributions(lines[..|lines| - 1]) + Contribution(lines[|lines| - 1])
  }

  /** The index of the first "RESPONSE:" line, if any. */
  function FirstResponse(lines: seq<Line>): (r: Option<nat>)
    ensures r.None? <==> forall k :: 0 <= k < |lines| ==> !lines[k].ResponseLine?
    ensures r.Some? ==> r.value < |lines| && lines[r.value].ResponseLine?
    ensures r.Some? ==> forall j :: 0 <= j < r.value ==> !lines[j].ResponseLine?
  {
    if lines == [] then None
    else match FirstResponse(lines[..|lines| - 1])
      case Some(k) => Some(k)
      case None => if lines[|lines| - 1].ResponseLine? then Some(|lines| - 1) else None
  }

  /** The message lines: the contributions of every line from the first
      "RESPONSE:" line on; none without such a line. */
  function ResponseText(lines: seq<Line>): seq<string> {
    match FirstResponse(lines)
    case None => []
    case Some(r) => Contributions(lines[r..])
  }

  /** The intent is "CHAT" when no line is an "INTENT:" line. */
  lemma {:induction false} ScanIntentDefault(lines: seq<Line>)
    requires forall k :: 0 <= k < |lines| ==> !lines[k].IntentLine?
    ensures Scan(lines).intent == DefaultIntent
  {
    if lines != [] {
      ScanIntentDefault(lines[..|lines| - 1]);
    }
  }

  /** Otherwise the last "INTENT:" line decides it. */
  lemma {:induction false} ScanIntentLast(lines: seq<Line>, k: nat)
    requires k < |lines| && lines[k].IntentLine?
    requires forall j :: k < j < |lines| ==> !lines[j].IntentLine?
    ensures Scan(lines).intent == lines[k].intent
  {
    var n := |lines| - 1;
    if k < n {
      ScanIntentLast(lines[..n], k);
    }
  }

  /** The product id is set exactly when some line sets it, and it is then
      that line's digits. */
  lemma {:induction false} ScanProduct(lines: seq<Line>)
    ensures Scan(lines).productId.None? <==> forall k :: 0 <= k < |lines| ==> !SetsProduct(lines[k])
    ensures Scan(lines).productId.Some? ==>
              exists k :: 0 <= k < |lines| && SetsProduct(lines[k]) && lines[k].digits == Scan(lines).productId
  {
    if lines != [] {
      var n := |lines| - 1;
      ScanProduct(lines[..n]);
      assert forall k :: 0 <= k < n ==> lines[..n][k] == lines[k];
    }
  }

  /** The last line that sets the product id decides it. */
  lemma {:induction false} ScanProductLast(lines: seq<Line>, k: nat)
    requires k < |lines| && SetsProduct(lines[k])
    requires forall j :: k < j < |lines| ==> !SetsProduct(lines[j])
    ensures Scan(lines).productId == lines[k].digits
  {
    var n := |lines| - 1;
    if k < n {
      ScanProductLast(lines[..n], k);
    }
  }

  lemma ContributionsSnoc(lines: seq<Line>, line: Line)
    ensures Contributions(lines + [line]) == Contributions(lines) + Contribution(line)
  {
    assert (lines + [line])[..|lines|] == lines;
  }

  /** What one step adds to the message and to the in-section flag. */
  lemma StepMessage(st: ScanState, line: Line)
    ensures Step(st, line).inResponse == (st.inResponse || line.ResponseLine?)
    ensures Step(st, line).messageLines
         == st.messageLines + (if st.inResponse || line.ResponseLine? then Contribution(line) else [])
  {
  }

  /** The loop collects exactly the RESPONSE section, and is inside it
      exactly when a "RESPONSE:" line has been read. */
  lemma {:induction false} ScanMessage(lines: seq<Line>)
    ensures Scan(lines).inResponse <==> FirstResponse(lines).Some?
    ensures Scan(lines).messageLines == ResponseText(lines)
  {
    if lines != [] {
      var n := |lines| - 1;
      var init := lines[..n];
      var last := lines[n];
      ScanMessage(init);
      var st := Scan(init);
      assert Scan(lines) == Step(st, last);
      StepMessage(st, last);
      assert lines == init + [last];
      match FirstResponse(init)
      case Some(r) =>
        assert FirstResponse(lines) == Some(r);
        assert lines[r..] == init[r..] + [last];
        ContributionsSnoc(init[r..], last);
        calc {
          ResponseText(lines);
          Contributions(init[r..] + [last]);
          Contributions(init[r..]) + Contribution(last);
          st.messageLines + Contribution(last);
        }
      case None =>
        if last.ResponseLine? {
          assert FirstResponse(lines) == Some(n);
          assert lines[n..] == [] + [last];
          ContributionsSnoc([], last);
        } else {
          assert FirstResponse(lines) == None;
        }
    }
  }

  /** `parse_gemini_response` keeps intent "CHAT" unless an "INTENT:" line
      occurs. */
  lemma ParseIntentDefault(response: string)
    requires forall k :: 0 <= k < |ReplyLines(response)| ==> !ReplyLines(response)[k].IntentLine?
    ensures Parse(response).intent == DefaultIntent
  {
    ScanIntentDefault(ReplyLines(response));
  }

  /** When several "INTENT:" lines occur, the last one wins. */
  lemma ParseIntentLast(response: string, k: nat)
    requires k < |ReplyLines(response)| && ReplyLines(response)[k].IntentLine?
    requires forall j :: k < j < |ReplyLines(response)| ==> !ReplyLines(response)[j].IntentLine?
    ensures Parse(response).intent == ReplyLines(response)[k].intent
  {
    ScanIntentLast(ReplyLines(response), k);
  }

  /** The product id it returns is none exactly when no "PRODUCT_ID:" line
      yields one, and otherwise the digits some such line yields (a
      non-empty digit string, by its type). */
  lemma ParseProductDigits(response: string)
    ensures var lines := ReplyLines(response);
      (Parse(response).productId.None? <==> forall k :: 0 <= k < |lines| ==> !SetsProduct(lines[k]))
      && (Parse(response).productId.Some? ==>
            exists k :: 0 <= k < |lines| && SetsProduct(lines[k]) && lines[k].digits == Parse(response).productId)
  {
    var lines := ReplyLines(response);
    ScanProduct(lines);
    assert Parse(response).productId == Scan(lines).productId;
  }

  /** The message is the RESPONSE section joined by spaces, or the whole
      reply when that section is empty or missing. */
  lemma ParseMessage(response: string)
    ensures var lines := ReplyLines(response);
      && Parse(response).message
         == (if ResponseText(lines) != [] then Join(ResponseText(lines), " ") else response)
      && (FirstResponse(lines).None? ==> Parse(response).message == response)
  {
    ScanMessage(ReplyLines(response));
  }

  // ---------------------------------------------------------------------
  // Keyword lines
  // ---------------------------------------------------------------------

  /** The keywords are written in upper case. */
  lemma KeywordsAreUpper()
    ensures Upper(IntentKey) == IntentKey
    ensures Upper(ProductKey) == ProductKey
    ensures Upper(ResponseKey) == ResponseKey
  {
  }

  /** A line that begins with an upper-case keyword passes that keyword's
      test, whatever the case of the rest. */
  lemma UpperKeepsKeyword(l: string, keyword: string)
    requires StartsWith(l, keyword) && Upper(keyword) == keyword
    ensures StartsWith(Upper(l), keyword)
  {
    forall i | 0 <= i < |keyword| ensures Upper(l)[i] == keyword[i] {
      assert Upper(keyword)[i] == UpperChar(keyword[i]);
    }
  }

  /** The keyword line written as the classifier is asked to write it:
      the keyword, one space, the value. */
  function KeywordLine(keyword: string, v: string): string {
    keyword + " " + v
  }

  lemma KeywordLineStripped(keyword: string, v: string)
    requires keyword != [] && !IsSpace(keyword[0]) && v != [] && IsStripped(v)
    ensures Strip(KeywordLine(keyword, v)) == KeywordLine(keyword, v)
    ensures KeywordLine(keyword, v)[|keyword|..] == " " + v
    ensures StartsWith(KeywordLine(keyword, v), keyword)
    ensures KeywordLine(keyword, v)[0] == keyword[0]
  {
    var l := KeywordLine(keyword, v);
    assert l[..|keyword|] == keyword;
    assert l[|l| - 1] == v[|v| - 1];
    StrippedIsFixed(l);
  }

  /** "INTENT: v" sets the intent to v upper-cased. */
  lemma ClassifyIntentLine(v: string)
    requires v != [] && IsStripped(v)
    ensures Classify(KeywordLine(IntentKey, v)) == IntentLine(Upper(v))
  {
    KeywordsEndInTheirOnlyColon();
    KeywordsAreUpper();
    var l := KeywordLine(IntentKey, v);
    KeywordLineStripped(IntentKey, v);
    UpperKeepsKeyword(l, IntentKey);
    StripAfterSpace(v);
  }

  /** "PRODUCT_ID: v" yields the digits of v, if any, as the product id. */
  lemma ClassifyProductLine(v: string)
    requires v != [] && IsStripped(v)
    ensures Classify(KeywordLine(ProductKey, v)) == ProductLine(ProductDigits(v))
  {
    KeywordsEndInTheirOnlyColon();
    KeywordsAreUpper();
    var l := KeywordLine(ProductKey, v);
    KeywordLineStripped(ProductKey, v);
    assert ProductKey[0] == 'P' && IntentKey[0] == 'I';
    assert Upper(l)[0] == 'P';
    assert !StartsWith(Upper(l), IntentKey) by { assert Upper(l)[..|IntentKey|][0] == 'P'; }
    UpperKeepsKeyword(l, ProductKey);
    StripAfterSpace(v);
  }

  /** "RESPONSE: v" opens the response section with v. */
  lemma ClassifyResponseLine(v: string)
    requires v != [] && IsStripped(v)
    ensures Classify(KeywordLine(ResponseKey, v)) == ResponseLine(v)
  {
    KeywordsEndInTheirOnlyColon();
    KeywordsAreUpper();
    var l := KeywordLine(ResponseKey, v);
    KeywordLineStripped(ResponseKey, v);
    assert ResponseKey[0] == 'R' && ProductKey[0] == 'P' && IntentKey[0] == 'I';
    assert Upper(l)[0] == 'R';
    assert !StartsWith(Upper(l), IntentKey) by { assert Upper(l)[..|IntentKey|][0] == 'R'; }
    assert !StartsWith(Upper(l), ProductKey) by { assert Upper(l)[..|ProductKey|][0] == 'R'; }
    UpperKeepsKeyword(l, ResponseKey);
    StripAfterSpace(v);
  }

  // ---------------------------------------------------------------------
  // The classifier's failure reply (server.py:285-286)
  // ---------------------------------------------------------------------

  const ErrorPrefix: string := "Sorry, I encountered an error: "

  /** The reply the classifier adapter substitutes when its call fails with
      the error text `e`: "INTENT: CHAT", "PRODUCT_ID: NONE" and
      "RESPONSE: Sorry, I encountered an error: " followed by `e`, on three
      lines. */
  function ErrorReply(e: string): (r: string)
    ensures StartsWith(r, KeywordLine(IntentKey, "CHAT") + "\n")
    ensures |e| <= |r| && r[|r| - |e|..] == e
  {
    KeywordLine(IntentKey, "CHAT") + "\n" + KeywordLine(ProductKey, "NONE") + "\n"
    + KeywordLine(ResponseKey, ErrorPrefix + e)
  }

  /** Three lines without line breaks, joined by line breaks, split back
      into the same three lines. */
  lemma SplitThreeLines(a1: string, a2: string, a3: string)
    requires '\n' !in a1 && '\n' !in a2 && '\n' !in a3
    ensures Split(a1 + "\n" + a2 + "\n" + a3, '\n') == [a1, a2, a3]
  {
    assert a1 + "\n" + a2 + "\n" + a3 == a1 + ['\n'] + (a2 + ['\n'] + a3);
    SplitAfterPiece(a1, '\n', a2 + ['\n'] + a3);
    SplitAfterPiece(a2, '\n', a3);
    SplitNoSeparator(a3, '\n');
  }

  /** Stripping text that ends in a keyword line strips only that line's
      value, when the text starts with a non-space character. */
  lemma StripBeforeKeywordLine(head: string, keyword: string, t: string)
    requires head != [] && !IsSpace(head[0])
    requires t != [] && !IsSpace(t[0])
    ensures Strip(head + KeywordLine(keyword, t)) == head + KeywordLine(keyword, RStrip(t))
  {
    var x := head + keyword + " ";
    ConcatAssoc(head, keyword + " ", t);
    ConcatAssoc(head, keyword + " ", RStrip(t));
    ConcatAssoc(head, keyword, " ");
    assert (x + t)[0] == head[0];
    assert LStrip(x + t) == x + t;
    RStripAppend(x, t);
  }

  /** The failure reply, stripped, has three lines: the intent, the
      product id, and the apology with the error text's trailing
      whitespace removed. */
  lemma ErrorReplyLines(e: string)
    requires '\n' !in e
    ensures Split(Strip(ErrorReply(e)), '\n')
         == [KeywordLine(IntentKey, "CHAT"), KeywordLine(ProductKey, "NONE"),
             KeywordLine(ResponseKey, Strip(ErrorPrefix + e))]
  {
    var t := ErrorPrefix + e;
    ApologyStripped(e);
    var a1, a2 := KeywordLine(IntentKey, "CHAT"), KeywordLine(ProductKey, "NONE");
    ErrorHeadLines();
    StripBeforeKeywordLine(a1 + "\n" + a2 + "\n", ResponseKey, t);
    SplitThreeLines(a1, a2, KeywordLine(ResponseKey, RStrip(t)));
  }

  /** The apology starts with a letter, so stripping it only trims its
      end, and it stays on one line when the error text does. */
  lemma ApologyStripped(e: string)
    ensures var t := ErrorPrefix + e;
      && t != [] && !IsSpace(t[0])
      && Strip(t) == RStrip(t) && Strip(t) != [] && IsStripped(Strip(t))
      && ('\n' !in e ==> '\n' !in Strip(t))
  {
    var t := ErrorPrefix + e;
    assert t[0] == 'S';
    assert LStrip(t) == t;
    if '\n' !in e {
      assert '\n' !in ErrorPrefix;
      NoBreakAfterRStrip(t);
    }
  }

  lemma NoBreakAfterRStrip(t: string)
    requires '\n' !in t
    ensures '\n' !in RStrip(t)
  {
    var t' := RStrip(t);
    forall i | 0 <= i < |t'| ensures t'[i] != '\n' {
      assert t'[i] == t[i];
    }
  }

  lemma ErrorHeadLines()
    ensures var a1, a2 := KeywordLine(IntentKey, "CHAT"), KeywordLine(ProductKey, "NONE");
      && (a1 + "\n" + a2 + "\n")[0] == 'I'
      && '\n' !in a1 && '\n' !in a2 && '\n' !in ResponseKey
  {
  }

  /** The values of the failure reply's first two lines. */
  lemma ChatAndNoneValues()
    ensures "CHAT" != [] && IsStripped("CHAT") && Upper("CHAT") == DefaultIntent
    ensures "NONE" != [] && IsStripped("NONE") && ProductDigits("NONE") == None
  {
    assert Upper("NONE") == "NONE";
  }

  lemma ScanThree(lines: seq<Line>)
    requires |lines| == 3
    ensures Scan(lines) == Step(Step(Step(Initial, lines[0]), lines[1]), lines[2])
  {
    var two := lines[..2];
    var one := two[..1];
    assert one[..0] == [];
    assert Scan(one) == Step(Initial, lines[0]);
    assert Scan(two) == Step(Scan(one), lines[1]);
  }

  /** A failed classifier call reads as a CHAT reply without a product whose
      message is the apology and the error text, never empty. */
  lemma ErrorReplyParsesAsChat(e: string)
    requires '\n' !in e
    ensures Parse(ErrorReply(e)) == Reply(DefaultIntent, None, Strip(ErrorPrefix + e))
    ensures Parse(ErrorReply(e)).message != []
  {
    ApologyStripped(e);
    ErrorReplyClassified(e);
    ParseChatReply(ErrorReply(e), Strip(ErrorPrefix + e));
  }

  lemma ErrorReplyClassified(e: string)
    requires '\n' !in e
    ensures ReplyLines(ErrorReply(e))
         == [IntentLine(DefaultIntent), ProductLine(None), ResponseLine(Strip(ErrorPrefix + e))]
  {
    var t' := Strip(ErrorPrefix + e);
    ApologyStripped(e);
    ChatAndNoneValues();
    ClassifyIntentLine("CHAT");
    ClassifyProductLine("NONE");
    ClassifyResponseLine(t');
    ErrorReplyLines(e);
    ThreeLinesClassified(ErrorReply(e), KeywordLine(IntentKey, "CHAT"), KeywordLine(ProductKey, "NONE"),
                         KeywordLine(ResponseKey, t'));
  }

  lemma ThreeLinesClassified(response: string, a1: string, a2: string, a3: string)
    requires Split(Strip(response), '\n') == [a1, a2, a3]
    ensures ReplyLines(response) == [Classify(a1), Classify(a2), Classify(a3)]
  {
    var raw := [a1, a2, a3];
    ClassifyAllAt(raw, 0);
    ClassifyAllAt(raw, 1);
    ClassifyAllAt(raw, 2);
    ThreeElements(ClassifyAll(raw), Classify(a1), Classify(a2), Classify(a3));
  }

  lemma ThreeElements<T>(s: seq<T>, x: T, y: T, z: T)
    requires |s| == 3 && s[0] == x && s[1] == y && s[2] == z
    ensures s == [x, y, z]
  {
  }

  /** A reply classified as an intent of CHAT, no product and a non-empty
      response line parses to exactly that. */
  lemma ParseChatReply(response: string, t: string)
    requires t != []
    requires ReplyLines(response) == [IntentLine(DefaultIntent), ProductLine(None), ResponseLine(t)]
    ensures Parse(response) == Reply(DefaultIntent, None, t)
  {
    ScanThree(ReplyLines(response));
  }

  // ---------------------------------------------------------------------
  // The loop
  // ---------------------------------------------------------------------

  /** One turn of the source's loop: the variables after reading `line`. */
  method ReadLine(intent0: string, productId0: Option<DigitString>, messageLines0: seq<string>,
                  inResponse0: bool, line: string)
    returns (intent: string, productId: Option<DigitString>, messageLines: seq<string>, inResponse: bool)
    ensures ScanState(intent, productId, messageLines, inResponse)
         == Step(ScanState(intent0, productId0, messageLines0, inResponse0), Classify(line))
  {
    intent, productId, messageLines, inResponse := intent0, productId0, messageLines0, inResponse0;
    KeywordsEndInTheirOnlyColon();
    var stripped := Strip(line);
    if StartsWith(Upper(stripped), IntentKey) {
      intent := Upper(Strip(AfterColon(stripped, IntentKey)));
      assert Classify(line) == IntentLine(intent);
    } else if StartsWith(Upper(stripped), ProductKey) {
      var pid := Strip(AfterColon(stripped, ProductKey));
      if Upper(pid) != "NONE" && pid != "" {
        var clean := KeepDigits(pid);
        if clean != "" {
          productId := Some(clean);
        }
      }
      assert Classify(line) == ProductLine(ProductDigits(pid));
    } else if StartsWith(Upper(stripped), ResponseKey) {
      inResponse := true;
      var rest := Strip(AfterColon(stripped, ResponseKey));
      if rest != "" {
        messageLines := messageLines + [rest];
      }
      assert Classify(line) == ResponseLine(rest);
    } else {
      assert Classify(line) == TextLine(stripped);
      if inResponse {
        messageLines := messageLines + [stripped];
      }
    }
  }

  /** Classifying one more line extends the classification by one. */
  lemma ClassifyAllSnoc(lines: seq<string>, i: nat)
    requires i < |lines|
    ensures ClassifyAll(lines[..i + 1]) == ClassifyAll(lines[..i]) + [Classify(lines[i])]
  {
    assert lines[..i + 1][..i] == lines[..i];
  }

  /** Scanning one more line is one more step. */
  lemma ScanSnoc(lines: seq<Line>, line: Line)
    ensures Scan(lines + [line]) == Step(Scan(lines), line)
  {
    assert (lines + [line])[..|lines|] == lines;
  }

  /** The loop of `parse_gemini_response` over the split lines: it ends
      in the state `Scan` reaches on their classification. */
  method ScanLines(lines: seq<string>)
    returns (intent: string, productId: Option<DigitString>, messageLines: seq<string>, inResponse: bool)
    ensures ScanState(intent, productId, messageLines, inResponse) == Scan(ClassifyAll(lines))
  {
    intent := DefaultIntent;
    productId := None;
    messageLines := [];
    inResponse := false;
    ghost var done: seq<Line> := [];
    var i := 0;
    while i < |lines|
      invariant 0 <= i <= |lines|
      invariant done == ClassifyAll(lines[..i])
      invariant Scan(done) == ScanState(intent, productId, messageLines, inResponse)
    {
      var line := Classify(lines[i]);
      ClassifyAllSnoc(lines, i);
      ScanSnoc(done, line);
      intent, productId, messageLines, inResponse := ReadLine(intent, productId, messageLines, inResponse, lines[i]);
      done := done + [line];
      i := i + 1;
    }
    assert lines[..i] == lines;
  }

  /** `parse_gemini_response`: strip, split on newlines, scan, and fall
      back to the whole response when no message line was collected. */
  method ParseGeminiResponse(response: string) returns (intent: string, productId: Option<DigitString>, message: string)
    ensures Reply(intent, productId, message) == Parse(response)
  {
    var messageLines: seq<string>;
    var inResponse: bool;
    intent, productId, messageLines, inResponse := ScanLines(Split(Strip(response), '\n'));
    message := if messageLines != [] then Join(messageLines, " ") else response;
  }
}
