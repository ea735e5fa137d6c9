/**
 * The conversation agent: greetings and help requests are recognised by
 * keyword and answered with fixed texts (the greeting depends on the hour of
 * the day); anything else goes to the language model, retried a bounded
 * number of times, with a fixed apology once every attempt has failed.
 */
module Conversation {
  import opened Wrappers
  import opened Strings

  const Greetings: seq<string> := [
    "xin chào", "chào", "hello", "hi", "hey", "alo", "chào bạn",
    "chào buổi sáng", "chào buổi chiều", "chào buổi tối"
  ]

  const CommonQuestions: seq<string> := [
    "bạn là ai", "bạn có thể làm gì", "giúp tôi", "trợ giúp",
    "hướng dẫn", "khả năng", "chức năng"
  ]

  /** `any(p in message for p in phrases)`, scanning the phrases left to right. */
  predicate AnyIn(phrases: seq<string>, message: string)
    decreases |phrases|
  {
    |phrases| > 0 && (Contains(message, phrases[0]) || AnyIn(phrases[1..], message))
  }

  lemma {:induction false} AnyInIff(phrases: seq<string>, message: string)
    ensures AnyIn(phrases, message) <==> exists i :: 0 <= i < |phrases| && Contains(message, phrases[i])
    decreases |phrases|
  {
    if |phrases| > 0 {
      AnyInIff(phrases[1..], message);
      if AnyIn(phrases[1..], message) && !Contains(message, phrases[0]) {
        var i :| 0 <= i < |phrases| - 1 && Contains(message, phrases[1..][i]);
        assert Contains(message, phrases[i + 1]);
      }
      if exists i :: 0 <= i < |phrases| && Contains(message, phrases[i]) {
        var i :| 0 <= i < |phrases| && Contains(message, phrases[i]);
        if i > 0 {
          assert phrases[1..][i - 1] == phrases[i];
        }
      }
    }
  }

  /** `is_greeting`. */
  predicate IsGreeting(message: string) {
    AnyIn(Greetings, Lower(message))
  }

  /** `is_help_request`. */
  predicate IsHelpRequest(message: string) {
    AnyIn(CommonQuestions, Lower(message))
  }

  /** A message is a greeting exactly when one of the greeting phrases occurs in its
      lower-cased form, and a help request exactly when one of the help phrases does. */
  lemma KeywordDetection(message: string)
    ensures IsGreeting(message) <==> exists i :: 0 <= i < |Greetings| && Contains(Lower(message), Greetings[i])
    ensures IsHelpRequest(message) <==> exists i :: 0 <= i < |CommonQuestions| && Contains(Lower(message), CommonQuestions[i])
  {
    AnyInIff(Greetings, Lower(message));
    AnyInIff(CommonQuestions, Lower(message));
  }

  /** The test is a substring test, not a word test: any message whose lower-cased
      form holds "hi" anywhere, even inside a word as in "Which sector ...?", is a
      greeting. */
  lemma GreetingMatchesInsideWords(message: string)
    requires Contains(Lower(message), "hi")
    ensures IsGreeting(message)
  {
    assert Greetings[3] == "hi";
    AnyInIff(Greetings, Lower(message));
  }

  /** The salutation for an hour of the day: [5, 12) morning, [12, 18) afternoon, otherwise evening. */
  function HourGreeting(hour: int): (g: string)
    ensures 5 <= hour < 12 <==> g == "Chào buổi sáng"
    ensures 12 <= hour < 18 <==> g == "Chào buổi chiều"
    ensures g == "Chào buổi tối" <==> hour < 5 || hour >= 18
  {
    if 5 <= hour < 12 then "Chào buổi sáng"
    else if 12 <= hour < 18 then "Chào buổi chiều"
    else "Chào buổi tối"
  }

  /** The `type` of a reply dictionary. */
  datatype Kind = Greeting | Help | Chat | Failure

  /** The string the dictionary carries for each kind. */
  function TypeName(k: Kind): string {
    match k
    case Greeting => "greeting"
    case Help => "help"
    case Chat => "conversation"
    case Failure => "error"
  }

  /** Different kinds carry different `type` strings, so the string tells the kind. */
  lemma TypeNameInjective(j: Kind, k: Kind)
    ensures TypeName(j) == TypeName(k) ==> j == k
  {
  }

  /** The dictionary the agent returns: its `type` and its `message`. */
  datatype Reply = Reply(kind: Kind, message: string)

  const GreetingTail := "! Tôi là trợ lý thông tin tài chính. Tôi có thể giúp gì cho bạn về thông tin công ty, giá cổ phiếu, hoặc tin tức tài chính?"

  /** The help text, line by line (each line keeps its newline; the last is the closing indentation). */
  const HelpLines: seq<string> := [
    "Tôi có thể giúp bạn:\n",
    "                1. Tìm kiếm thông tin tài chính và tin tức mới nhất về các công ty\n",
    "                2. Tra cứu giá cổ phiếu và dữ liệu thị trường\n",
    "                3. Truy vấn cơ sở dữ liệu về thông tin công ty và lịch sử giá cổ phiếu\n",
    "                4. Trả lời các câu hỏi chung về tài chính và đầu tư\n",
    "\n",
    "                Bạn có thể hỏi những câu như:\n",
    "                - \"Giá cổ phiếu của Apple hôm nay là bao nhiêu?\"\n",
    "                - \"Cho tôi tin tức mới nhất về Tesla\"\n",
    "                - \"Thông tin về công ty Microsoft\"\n",
    "                - \"Xu hướng thị trường chứng khoán gần đây\"\n",
    "                "
  ]

  const HelpText := Concat(HelpLines)

  const Apology := "Xin lỗi, tôi đang gặp vấn đề kỹ thuật. Vui lòng thử lại sau."

  /** `get_standard_response`, with the current hour as a parameter. A greeting takes
      precedence over a help request; a message that is neither has no standard response. */
  function StandardResponse(message: string, hour: int): (r: Option<Reply>)
    ensures r.Some? <==> IsGreeting(message) || IsHelpRequest(message)
    ensures IsGreeting(message) ==> r == Some(Reply(Greeting, HourGreeting(hour) + GreetingTail))
    ensures !IsGreeting(message) && IsHelpRequest(message) ==> r == Some(Reply(Help, HelpText))
  {
    var m := Lower(message);
    LowerIdempotent(message);
    if AnyIn(Greetings, Lower(m)) then Some(Reply(Greeting, HourGreeting(hour) + GreetingTail))
    else if AnyIn(CommonQuestions, Lower(m)) then Some(Reply(Help, HelpText))
    else None
  }

  /** What the retry loop of `process_message` yields, with `reply(k)` the model's
      answer on attempt `k` (or the exception it raised): the first answer, stripped,
      as type `conversation`; after `maxRetries` failures the fixed apology, as type
      `error`; one sleep between consecutive attempts and none after the last; and
      None, with no attempt, when `maxRetries <= 0`. */
  predicate RetryOutcome(maxRetries: int, reply: nat -> Call<string>, r: Option<Reply>, attempts: nat, sleeps: nat) {
    && (maxRetries <= 0 <==> r == None)
    && (maxRetries <= 0 ==> attempts == 0)
    && (maxRetries > 0 ==> 1 <= attempts <= maxRetries)
    && sleeps == (if attempts == 0 then 0 else attempts - 1)
    && (forall k :: 0 <= k < attempts - 1 ==> reply(k).Raised?)
    && (r.Some? ==> r.value.kind == Chat || r.value.kind == Failure)
    && (r.Some? && r.value.kind == Chat ==>
          reply(attempts - 1).Returned? && r.value.message == PyStrip(reply(attempts - 1).value))
    && (r.Some? && r.value.kind == Failure <==> maxRetries > 0 && attempts == maxRetries && reply(attempts - 1).Raised?)
    && (r.Some? && r.value.kind == Failure ==> r.value.message == Apology)
  }

  /** The retry loop of `process_message`. */
  method AskModel(maxRetries: int, reply: nat -> Call<string>)
    returns (r: Option<Reply>, attempts: nat, sleeps: nat)
    ensures RetryOutcome(maxRetries, reply, r, attempts, sleeps)
  {
    var retries: nat := 0;
    sleeps := 0;
    while retries < maxRetries
      invariant retries == 0 || retries < maxRetries
      invariant sleeps == retries
      invariant forall k :: 0 <= k < retries ==> reply(k).Raised?
    {
      var response := reply(retries);
      if response.Returned? {
        return Some(Reply(Chat, PyStrip(response.value))), retries + 1, sleeps;
      }
      retries := retries + 1;
      if retries == maxRetries {
        return Some(Reply(Failure, Apology)), retries, sleeps;
      }
      sleeps := sleeps + 1;
    }
    r, attempts := None, 0;
  }

  /** `process_message`: a standard response is returned without calling the model
      (no attempt, no sleep); any other message gets what the retry loop yields. */
  method ProcessMessage(maxRetries: int, message: string, hour: int, reply: nat -> Call<string>)
    returns (r: Option<Reply>, attempts: nat, sleeps: nat)
    ensures StandardResponse(message, hour).Some? ==>
      r == StandardResponse(message, hour) && attempts == 0 && sleeps == 0
    ensures StandardResponse(message, hour).None? ==> RetryOutcome(maxRetries, reply, r, attempts, sleeps)
  {
    var standard := StandardResponse(message, hour);
    if standard.Some? {
      return standard, 0, 0;
    }
    r, attempts, sleeps := AskModel(maxRetries, reply);
  }
}
