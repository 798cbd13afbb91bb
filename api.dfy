/**
 * The REST endpoints the front end talks to, seen from the client: the profile
 * record, the request bodies it sends, the replies it reads, and a log of the
 * requests sent so far. The server itself is not part of this model; every
 * reply is an input.
 */
module Api {
  import opened Wrappers

  /** The `UserProfile` record cached by the profile hook. */
  datatype Profile = Profile(
    id: int,
    userId: string,
    favoriteEra: string,
    swiftCoins: int,
    achievementBadges: seq<string>,
    createdAt: string,
    updatedAt: string)

  /** The partial body of `PUT /api/user/profile`: only the fields given are sent. */
  datatype Updates = Updates(
    favoriteEra: Option<string>,
    swiftCoins: Option<int>,
    achievementBadges: Option<seq<string>>)

  /** The requests the front end issues, in the order they leave the page. */
  datatype Request =
    | GetProfile
    | PostProfile(favoriteEra: string, swiftCoins: int, achievementBadges: seq<string>)
    | PutProfile(updates: Updates)
    | PostQuizAttempt(quizType: string, score: int, questionsAnswered: nat, timeTaken: int)
    | PostAchievement(achievementId: string, achievementName: string)

  /**
   * What an awaited `fetch` yields: a response with an HTTP status and the body
   * `response.json()` would decode, or a rejection (the network failed) carrying
   * the message of the error thrown.
   */
  datatype Response<T> = Response(status: int, body: T) | NetworkFailure(message: string) {
    /** `response.ok`: a status in the 200-299 range. */
    predicate Ok() {
      Response? && 200 <= status <= 299
    }
  }

  /** The outgoing side of the network: every request sent, oldest first. */
  class Network {
    var sent: seq<Request>

    constructor ()
      ensures sent == []
    {
      sent := [];
    }

    method Send(r: Request)
      modifies this
      ensures sent == old(sent) + [r]
    {
      sent := sent + [r];
    }
  }
}
