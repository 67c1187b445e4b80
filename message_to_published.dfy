/** Turning chat messages into a published item (src/utils/_messageToPublished.ts): one
    message on its own, or a user message with the bot answer that followed it. The fresh
    id (`msg-<time>-<random>`) and the current time are given. */
module MessageToPublished {
  import opened Common
  import opened Messages
  import opened FavoriteSearches

  /** The fresh values a conversion may use: a generated id and the current time. */
  datatype Supply = Supply(id: string, now: int)

  const NoKeyword: string := "키워드 없음"
  const NoTitle: string := "제목 없음"
  const SampleLength: nat := 100

  /** `content.slice(0, 100) + (content.length > 100 ? '...' : '')`. */
  function ResultSample(content: string): (r: string)
    ensures |content| <= SampleLength ==> r == content
    ensures |content| > SampleLength ==> |r| == SampleLength + 3 && StartsWith(r, content[..SampleLength]) && EndsWith(r, "...")
  {
    if |content| > SampleLength then content[..SampleLength] + "..." else content
  }

  /** `message.id || generated`. */
  function IdOr(id: Option<string>, supply: Supply): string {
    OrElse(id, supply.id)
  }

  /** `timestamp ? new Date(timestamp) : now`: a zero or missing timestamp gives the current
      time. */
  function CreatedAt(timestamp: Option<int>, supply: Supply): int {
    if timestamp.Some? && timestamp.value != 0 then timestamp.value else supply.now
  }

  function ConvertMessage(message: Message, supply: Supply): (r: FavoriteSearch) {
    FavoriteSearch(
      id := IdOr(message.id, supply),
      keyword := OrElse(message.keyword, NoKeyword),
      refMsg := message.ref,
      title := OrElse(message.keyword, NoTitle),
      createdAt := CreatedAt(message.timestamp, supply),
      isPublished := Some(true),
      resultSample := if message.role == Bot then Some(ResultSample(message.content)) else None,
      memo := Some(""),
      blogId := Some(""),
      isActive := Some(true),
      isVisible := Some(false),
      exposureRank := Some(0),
      userMessageId := if message.role == User then message.id else None,
      botMessageId := if message.role == Bot then message.id else None,
      botContent := if message.role == Bot then Some(message.content) else None,
      service := message.service,
      originalTimestamp := message.timestamp)
  }

  /** `userMessage.service || botMessage?.service`. */
  function PairService(user: Message, bot: Option<Message>): Option<string> {
    if Truthy(user.service) then user.service
    else if bot.Some? then bot.value.service
    else None
  }

  function ConvertPair(user: Message, bot: Option<Message>, supply: Supply): (r: FavoriteSearch) {
    FavoriteSearch(
      id := IdOr(user.id, supply),
      keyword := OrElse(user.keyword, NoKeyword),
      refMsg := user.ref,
      title := OrElse(user.keyword, NoTitle),
      createdAt := CreatedAt(user.timestamp, supply),
      isPublished := Some(true),
      resultSample := if bot.Some? then Some(ResultSample(bot.value.content)) else None,
      memo := Some(""),
      blogId := Some(""),
      isActive := Some(true),
      isVisible := Some(false),
      exposureRank := Some(0),
      userMessageId := user.id,
      botMessageId := if bot.Some? then bot.value.id else None,
      botContent := if bot.Some? then Some(bot.value.content) else None,
      service := PairService(user, bot),
      originalTimestamp := user.timestamp)
  }

  /** The fields every converted item has: published, active, hidden, rank 0, with an empty
      memo and blog id. */
  predicate FreshlyPublished(item: FavoriteSearch) {
    item.isPublished == Some(true) && item.memo == Some("") && item.blogId == Some("") &&
    item.isActive == Some(true) && item.isVisible == Some(false) && item.exposureRank == Some(0)
  }

  /** One message becomes a published item: the message's id when it has a non-empty one,
      the generated id otherwise; its keyword as both keyword and title, or the two
      defaults; the sample, bot id and bot content only for a bot answer, the user id only
      for a user message. */
  lemma ConvertMessageShape(message: Message, supply: Supply)
    ensures var r := ConvertMessage(message, supply);
            && FreshlyPublished(r)
            && (Truthy(message.id) ==> r.id == message.id.value)
            && (!Truthy(message.id) ==> r.id == supply.id)
            && (Truthy(message.keyword) ==> r.keyword == r.title == message.keyword.value)
            && (!Truthy(message.keyword) ==> r.keyword == NoKeyword && r.title == NoTitle)
            && (r.resultSample.Some? || r.botContent.Some? ==> message.role == Bot)
            && (message.role == Bot ==> r.resultSample.Some? && r.botContent == Some(message.content) && r.userMessageId == None)
            && (message.role == User ==> r.userMessageId == message.id && r.botMessageId == None && r.resultSample == None)
            && (r.resultSample.Some? ==> |r.resultSample.value| <= SampleLength + 3)
  {
  }

  /** A pair takes its id, keyword, title, reference and times from the user message and
      its sample and bot fields from the answer; its service is the user message's when that
      is not empty and the answer's otherwise. Without an answer it is the user message
      converted on its own, except that an empty service is dropped. */
  lemma ConvertPairShape(user: Message, bot: Option<Message>, supply: Supply)
    ensures var r := ConvertPair(user, bot, supply);
            && FreshlyPublished(r)
            && r.id == ConvertMessage(user, supply).id
            && r.keyword == ConvertMessage(user, supply).keyword
            && r.title == ConvertMessage(user, supply).title
            && r.userMessageId == user.id
            && r.refMsg == user.ref
            && r.createdAt == ConvertMessage(user, supply).createdAt && r.originalTimestamp == user.timestamp
            && (Truthy(user.service) ==> r.service == user.service)
            && (!Truthy(user.service) && bot.Some? ==> r.service == bot.value.service)
            && (!Truthy(user.service) && bot.None? ==> r.service == None)
            && (bot.None? ==> r.resultSample == None && r.botMessageId == None && r.botContent == None)
            && (bot.Some? && bot.value.role == Bot ==>
                  r.resultSample == ConvertMessage(bot.value, supply).resultSample
                  && r.botMessageId == ConvertMessage(bot.value, supply).botMessageId
                  && r.botContent == ConvertMessage(bot.value, supply).botContent)
            && (bot.None? && user.role == User && user.service != Some("") ==> r == ConvertMessage(user, supply))
            && (bot.None? && user.service == Some("") ==> r.service == None)
  {
  }
}
