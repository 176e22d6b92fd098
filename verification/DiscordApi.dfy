/** The part of the Discord client that the controllers rely on: which status
    codes count as a successful delete, and the shape of a webhook URL. */
module DiscordApi {
  import opened Text

  const WEBHOOK_BASE := "https://discord.com/api/webhooks/"

  /** What Discord promises: these answers mean that it deleted the channel. */
  predicate Deletes(code: int)
  {
    code == 200 || code == 204
  }

  /** What the client takes for success: a channel that was already gone counts as
      deleted. */
  predicate DeleteAccepted(code: int)
  {
    code == 200 || code == 204 || code == 404
  }

  function WebhookUrl(id: string, token: string): string
  {
    WEBHOOK_BASE + id + "/" + token
  }

  /** Slash-free ids make the URL a faithful name: it determines both the
      webhook and its token. */
  lemma WebhookUrlInjective(id1: string, token1: string, id2: string, token2: string)
    requires '/' !in id1 && '/' !in id2
    ensures WebhookUrl(id1, token1) == WebhookUrl(id2, token2) <==> id1 == id2 && token1 == token2
  {
    if WebhookUrl(id1, token1) == WebhookUrl(id2, token2) {
      CutPrefix(WEBHOOK_BASE, id1 + "/" + token1, id2 + "/" + token2) by {
        assert WEBHOOK_BASE + (id1 + "/" + token1) == WebhookUrl(id1, token1);
        assert WEBHOOK_BASE + (id2 + "/" + token2) == WebhookUrl(id2, token2);
      }
      CutFirst('/', id1, token1, id2, token2);
    }
  }
}
