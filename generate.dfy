/** The AI service's `generate_content` route: it builds a prompt from the property's
    fields, asks the chat model for marketing text, and maps the client's errors to statuses. */
module Generate {
  import opened Text

  /** A value of the request's `property_data` dictionary. Numbers, and nested lists or
      dicts, carry the text Python prints for them. */
  datatype PyValue = PyNone | PyBool(b: bool) | PyNumber(repr: string) | PyStr(s: string) | PyNested(repr: string)

  /** `f"{v}"` */
  function Format(v: PyValue): string {
    match v
    case PyNone => "None"
    case PyBool(b) => if b then "True" else "False"
    case PyNumber(repr) => repr
    case PyStr(s) => s
    case PyNested(repr) => repr
  }

  /** `f"{info.get(key, default)}"`: the default applies only when the key is absent;
      a present None or empty string is formatted as it is. */
  function GetFormatted(info: map<string, PyValue>, key: string, default: string): (r: string)
    ensures key !in info ==> r == default
    ensures key in info ==> r == Format(info[key])
  {
    if key in info then Format(info[key]) else default
  }

  const AddressDefault := "不詳地點"
  const UnknownDefault := "未知"
  const DescriptionDefault := "無特別描述。"
  const ExtraLabel := "額外要求: "
  const Instruction := "請強調其優勢，並使用吸引人的語氣，字數控制在 150 字以內。"

  const AddressOpening := "請為這個位於 "
  const AddressClosing := " 的建案撰寫一段精美的行銷文案。\n"

  /** The first line of the prompt, naming the address. */
  function AddressLine(info: map<string, PyValue>): string {
    AddressOpening + GetFormatted(info, "address", AddressDefault) + AddressClosing
  }

  /** The three fixed lines that describe the property. */
  function Header(info: map<string, PyValue>): string {
    AddressLine(info) + Details(info)
  }

  /** The area, price and description lines that follow the address line. */
  function Details(info: map<string, PyValue>): string {
    "主要資訊：面積約 " + GetFormatted(info, "area", UnknownDefault)
    + " 坪，開價約 " + GetFormatted(info, "price", UnknownDefault) + " 萬。\n"
    + "更多細節：" + GetFormatted(info, "description", DescriptionDefault) + "\n"
  }

  function ExtraLine(prompt: string): string {
    ExtraLabel + prompt + "\n"
  }

  /** `base_prompt` as the route assembles it. */
  function BasePrompt(info: map<string, PyValue>, prompt: string): (r: string)
    ensures StartsWith(r, AddressLine(info))
    ensures |r| >= |Instruction| && r[|r| - |Instruction|..] == Instruction
    ensures prompt == "" ==> r == Header(info) + Instruction
    ensures prompt != "" ==> r == Header(info) + ExtraLine(prompt) + Instruction
  {
    var head := Header(info);
    var withExtra := if prompt != "" then head + ExtraLine(prompt) else head;
    var r := withExtra + Instruction;
    ConcatParts(AddressLine(info), Details(info));
    ConcatParts(head, ExtraLine(prompt));
    ConcatParts(withExtra, Instruction);
    StartsWithTransitive(withExtra, head, AddressLine(info));
    StartsWithTransitive(r, withExtra, AddressLine(info));
    r
  }

  /** The extra-requirement line is there exactly when the request's `prompt` is non-empty:
      the prompt is longer than header and instruction iff `prompt` is non-empty, and then
      its middle is the extra line. */
  lemma ExtraLineIffPrompt(info: map<string, PyValue>, prompt: string)
    ensures var r := BasePrompt(info, prompt);
            var h := |Header(info)|;
            && (|r| > h + |Instruction| <==> prompt != "")
            && (prompt != "" ==> r[h..|r| - |Instruction|] == ExtraLine(prompt))
  {
  }

  /** A present address, even None or empty, suppresses the default. */
  lemma PresentAddressNotDefaulted(info: map<string, PyValue>, prompt: string)
    requires "address" in info && (info["address"] == PyStr("") || info["address"] == PyNone)
    ensures info["address"] == PyStr("") ==> StartsWith(BasePrompt(info, prompt), AddressOpening + AddressClosing)
    ensures info["address"] == PyNone ==> StartsWith(BasePrompt(info, prompt), AddressOpening + "None" + AddressClosing)
  {
    var r := BasePrompt(info, prompt);
    assert StartsWith(r, AddressLine(info));
    if info["address"] == PyStr("") {
      assert AddressLine(info) == AddressOpening + "" + AddressClosing;
      assert AddressOpening + "" == AddressOpening;
    }
  }

  /** What the chat-completion call produced: the message content (None when the model
      returned no text), or one of the client's exceptions with its text. */
  datatype Completion =
    | Completed(content: Option<string>)
    | AuthenticationError(text: string)
    | RateLimitError(text: string)
    | OtherError(text: string)

  /** The route's answer: `{"generated_content": ...}`, or an `HTTPException`. */
  datatype Reply = Generated(generatedContent: string) | HttpError(status: int, detail: string)

  /** The answer and the prompt sent to the chat model, if it was called. */
  datatype Outcome = Outcome(reply: Reply, sentPrompt: Option<string>)

  const AuthDetailPrefix := "OpenAI API 金鑰無效或認證失敗，請檢查您的金鑰配置。詳細錯誤: "
  const RateLimitDetailPrefix := "OpenAI API 配額超限或請求頻率過高，請稍後重試。詳細錯誤: "
  const UnexpectedDetailPrefix := "生成文案時發生未預期錯誤，請檢查 AI 服務日誌。詳細錯誤: "
  /** `str()` of the `HTTPException` raised for a missing OpenAI key (Starlette's format). */
  const MissingKeyText := "500: OpenAI API 金鑰未配置。請檢查 .env 檔案。"
  /** The `AttributeError` text when the model's message content is None. */
  const NoContentText := "'NoneType' object has no attribute 'strip'"

  /** `generate_content(data)`. `openAiKey` is the client's `api_key`; `completion` is what
      the chat call would produce. */
  function GenerateContent(info: map<string, PyValue>, prompt: string, openAiKey: string, completion: Completion): (o: Outcome)
    // no key: the chat model is not called, and the route's own 500 is caught by the generic
    // handler and raised again as a 500 with the "unexpected error" detail
    ensures openAiKey == "" ==> o == Outcome(HttpError(500, UnexpectedDetailPrefix + MissingKeyText), None)
    ensures openAiKey != "" ==> o.sentPrompt == Some(BasePrompt(info, prompt))
    ensures o.reply.Generated? <==> openAiKey != "" && completion.Completed? && completion.content.Some?
    ensures o.reply.Generated? ==> o.reply.generatedContent == Strip(completion.content.value)
    ensures o.reply.HttpError? ==> o.reply.status in {401, 429, 500}
    ensures o.reply.HttpError? && o.reply.status == 401 <==> openAiKey != "" && completion.AuthenticationError?
    ensures o.reply.HttpError? && o.reply.status == 429 <==> openAiKey != "" && completion.RateLimitError?
    ensures openAiKey != "" && completion.AuthenticationError? ==> o.reply.detail == AuthDetailPrefix + completion.text
    ensures openAiKey != "" && completion.RateLimitError? ==> o.reply.detail == RateLimitDetailPrefix + completion.text
    ensures openAiKey != "" && completion.OtherError? ==> o.reply == HttpError(500, UnexpectedDetailPrefix + completion.text)
    ensures openAiKey != "" && completion == Completed(None) ==> o.reply == HttpError(500, UnexpectedDetailPrefix + NoContentText)
  {
    if openAiKey == "" then
      Outcome(HttpError(500, UnexpectedDetailPrefix + MissingKeyText), None)
    else
      var sent := Some(BasePrompt(info, prompt));
      match completion
      case Completed(Some(content)) => Outcome(Generated(Strip(content)), sent)
      case Completed(None) => Outcome(HttpError(500, UnexpectedDetailPrefix + NoContentText), sent)
      case AuthenticationError(text) => Outcome(HttpError(401, AuthDetailPrefix + text), sent)
      case RateLimitError(text) => Outcome(HttpError(429, RateLimitDetailPrefix + text), sent)
      case OtherError(text) => Outcome(HttpError(500, UnexpectedDetailPrefix + text), sent)
  }

  /** The relayed content has no whitespace at either end. */
  lemma GeneratedContentStripped(info: map<string, PyValue>, prompt: string, openAiKey: string, completion: Completion)
    requires openAiKey != "" && completion.Completed? && completion.content.Some?
    ensures var c := GenerateContent(info, prompt, openAiKey, completion).reply.generatedContent;
            c != "" ==> !IsSpace(c[0]) && !IsSpace(c[|c| - 1])
    ensures var c := GenerateContent(info, prompt, openAiKey, completion).reply.generatedContent;
            Strip(c) == c
  {
    var content := completion.content.value;
    StripIsTrimmedSlice(content);
    StripIdempotent(content);
  }
}
