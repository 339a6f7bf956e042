/** The prompt the chat endpoint sends upstream (`pages/api/chat.js`, the
    persona constant and the history/prompt construction of `callGeminiAPI`). */
module Prompt {
  import opened Wrappers
  import opened Text
  import opened Turns

  /** The persona: fixed instructions placed at the head of every prompt. */
  const CompanyContext: string :=
    "\n" +
    "あなたは職場の匿名カウンセリング室のAIカウンセラーです。\n" +
    "\n" +
    "【この会社の特徴】\n" +
    "- 新規事業部門での不透明な意思決定が頻発\n" +
    "- 事前説明や相談なしに方針変更される環境\n" +
    "- 上司は責任回避傾向が強く、感情的な配慮に欠ける\n" +
    "- 部下の努力や貢献が軽視されがち\n" +
    "- 透明性の欠如により、メンバーが不安や失望を感じやすい\n" +
    "\n" +
    "【よくある悩み】\n" +
    "- 頑張ったのに突然方針変更される\n" +
    "- 事前説明がなく、疎外感を感じる\n" +
    "- 上司とのコミュニケーション不足\n" +
    "- 努力が正当に評価されない\n" +
    "- 職場での孤独感や無力感\n" +
    "\n" +
    "【あなたの役割】\n" +
    "- 相談者の気持ちに深く共感する\n" +
    "- 状況を客観視する手助けをする\n" +
    "- 現実的で建設的なアドバイスを提供\n" +
    "- 「逃げ道」を含む選択肢を示す\n" +
    "- 決して一人じゃないことを伝える\n" +
    "\n" +
    "相談者の感情を最優先に、寄り添う姿勢で対話してください。\n"

  /** How many of the most recent turns the prompt shows. */
  const HistoryWindow: nat := 6

  const TurnSeparator: string := "\n\n"
  const UserLabel: string := "ユーザー"
  const CounselorLabel: string := "カウンセラー"
  const LabelSeparator: string := ": "

  /** Text between the persona and the history block. */
  const HistoryHeading: string := "\n\n【これまでの会話】\n"

  /** Text between the history block and the user's message. */
  const MessageHeading: string := "\n\n【現在のユーザーメッセージ】\n" + UserLabel + LabelSeparator

  /** Text after the user's message. */
  const Instruction: string := "\n\n上記の文脈を踏まえて、カウンセラーとして共感的で建設的な回答をしてください。"

  /** `history.slice(-6)`: the last six turns, or all of them when there are fewer. */
  function RecentTurns(history: seq<ChatTurn>): (recent: seq<ChatTurn>)
    ensures |recent| == if |history| < HistoryWindow then |history| else HistoryWindow
    ensures recent == history[|history| - |recent|..]
  {
    if |history| <= HistoryWindow then history else history[|history| - HistoryWindow..]
  }

  /** One history line: the speaker's label, ": ", then the message. */
  function RenderTurn(turn: ChatTurn): string
  {
    (if turn.isUser then UserLabel else CounselorLabel) + LabelSeparator + turn.message
  }

  /** Reads a rendered line back as (isUser, message); None when the line
      carries neither label. */
  function ParseTurn(line: string): Option<(bool, string)>
  {
    var userTag := UserLabel + LabelSeparator;
    var counselorTag := CounselorLabel + LabelSeparator;
    if |userTag| <= |line| && line[..|userTag|] == userTag then
      Some((true, line[|userTag|..]))
    else if |counselorTag| <= |line| && line[..|counselorTag|] == counselorTag then
      Some((false, line[|counselorTag|..]))
    else None
  }

  /** A rendered line determines the speaker and the message it came from. */
  lemma ParseRenderTurn(turn: ChatTurn)
    ensures ParseTurn(RenderTurn(turn)) == Some((turn.isUser, turn.message))
  {
    var userTag := UserLabel + LabelSeparator;
    var line := RenderTurn(turn);
    if !turn.isUser {
      assert line[0] == 'カ' && userTag[0] == 'ユ';
      assert line[..|userTag|] != userTag by {
        assert line[..|userTag|][0] != userTag[0];
      }
    }
  }

  /** Every turn rendered, in order. */
  function RenderAll(turns: seq<ChatTurn>): seq<string>
  {
    seq(|turns|, i requires 0 <= i < |turns| => RenderTurn(turns[i]))
  }

  /** The history block: the recent turns rendered and joined by blank lines. */
  function HistoryText(history: seq<ChatTurn>): string
  {
    Join(RenderAll(RecentTurns(history)), TurnSeparator)
  }

  /** The i-th recent turn, which is turn `|history| - |recent| + i` of the
      whole history, appears rendered and verbatim at its place in the block:
      after the i earlier lines, each followed by one separator. */
  lemma HistoryTextShowsTurn(history: seq<ChatTurn>, i: nat)
    requires i < |RecentTurns(history)|
    ensures var recent := RecentTurns(history);
            var lines := RenderAll(recent);
            var at := Span(lines[..i], TurnSeparator);
            recent[i] == history[|history| - |recent| + i]
            && at + |RenderTurn(recent[i])| <= |HistoryText(history)|
            && HistoryText(history)[at..at + |RenderTurn(recent[i])|] == RenderTurn(recent[i])
  {
    JoinPartAt(RenderAll(RecentTurns(history)), TurnSeparator, i);
  }

  /** Consecutive rendered turns are separated by exactly one blank line. */
  lemma HistoryTextSeparates(history: seq<ChatTurn>, i: nat)
    requires i + 1 < |RecentTurns(history)|
    ensures var lines := RenderAll(RecentTurns(history));
            var end := Span(lines[..i], TurnSeparator) + |lines[i]|;
            end + |TurnSeparator| <= |HistoryText(history)|
            && HistoryText(history)[end..end + |TurnSeparator|] == TurnSeparator
            && end + |TurnSeparator| == Span(lines[..i + 1], TurnSeparator)
  {
    JoinSeparatorAt(RenderAll(RecentTurns(history)), TurnSeparator, i);
  }

  /** The block ends with the last rendered turn: no trailing separator. */
  lemma HistoryTextLength(history: seq<ChatTurn>)
    requires RecentTurns(history) != []
    ensures |HistoryText(history)| + |TurnSeparator| == Span(RenderAll(RecentTurns(history)), TurnSeparator)
  {
    JoinLength(RenderAll(RecentTurns(history)), TurnSeparator);
  }

  /** The prompt template of `callGeminiAPI`. */
  function FullPrompt(history: seq<ChatTurn>, message: string): string
  {
    CompanyContext + HistoryHeading + HistoryText(history) + MessageHeading + message + Instruction
  }

  /** Everything of the prompt that precedes the user's message. */
  function PromptHead(history: seq<ChatTurn>): string
  {
    CompanyContext + HistoryHeading + HistoryText(history) + MessageHeading
  }

  /** Recovers the user's message from a prompt built for `history`. */
  function MessageOf(prompt: string, history: seq<ChatTurn>): Option<string>
  {
    var head := PromptHead(history);
    if |head| + |Instruction| <= |prompt|
       && prompt[..|head|] == head
       && prompt[|prompt| - |Instruction|..] == Instruction
    then Some(prompt[|head|..|prompt| - |Instruction|])
    else None
  }

  /** The message is placed verbatim: reading it back gives it unchanged. */
  lemma PromptRoundTrip(history: seq<ChatTurn>, message: string)
    ensures MessageOf(FullPrompt(history, message), history) == Some(message)
  {
  }

  /** Different messages give different prompts for the same history. */
  lemma PromptInjective(history: seq<ChatTurn>, m1: string, m2: string)
    requires FullPrompt(history, m1) == FullPrompt(history, m2)
    ensures m1 == m2
  {
    PromptRoundTrip(history, m1);
    PromptRoundTrip(history, m2);
  }

  /** The six sections of the prompt, in order: persona, history heading,
      history block, message heading (ending in the user label), the message
      itself, and the closing instruction. */
  lemma PromptSections(history: seq<ChatTurn>, message: string)
    ensures var p := FullPrompt(history, message);
            var a := |CompanyContext|;
            var b := a + |HistoryHeading|;
            var c := b + |HistoryText(history)|;
            var d := c + |MessageHeading|;
            var e := d + |message|;
            |p| == e + |Instruction|
            && p[..a] == CompanyContext
            && p[a..b] == HistoryHeading
            && p[b..c] == HistoryText(history)
            && p[c..d] == MessageHeading
            && p[d..e] == message
            && p[e..] == Instruction
  {
    Concat6Sections(CompanyContext, HistoryHeading, HistoryText(history), MessageHeading, message, Instruction);
  }
}
