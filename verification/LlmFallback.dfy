/** `LLMClient.generate`: models in order, each retried while its failures may clear. */
module LlmFallback {
  import opened Common

  /** What one POST comes to: the extracted text, possibly empty, an HTTP error or another failure. */
  datatype Outcome = Text(text: string) | Http(code: int) | Transport

  /** Attempt `attempt` of the `model`-th model. */
  datatype Post = Post(model: nat, attempt: nat)

  /** The world: whether each model's request can be built, and what each POST would come to. */
  datatype Script = Script(builds: nat -> bool, outcome: Post -> Outcome)

  predicate Transient(outcome: Outcome, agentRouter: bool) {
    match outcome
    case Text(_) => false
    case Http(code) => code in {429, 500, 502, 503, 529} || (code == 400 && agentRouter)
    case Transport => true
  }

  /** What may clear: a lost connection, too many requests, an overloaded or failing server, and behind the
      agent router a refusal as well. No reply that has a text, even an empty one. */
  ghost predicate MayClear(outcome: Outcome, agentRouter: bool) {
    && !outcome.Text?
    && (outcome.Http? ==>
          || outcome.code == 429 || outcome.code == 529
          || outcome.code == 500 || outcome.code == 502 || outcome.code == 503
          || (agentRouter && outcome.code == 400))
  }

  /** The attempt is within bounds and only failures that may clear came before it. */
  ghost predicate Reached(s: Script, agentRouter: bool, maxRetries: int, p: Post) {
    && s.builds(p.model) && p.attempt < maxRetries
    && forall a: nat :: a < p.attempt ==> MayClear(s.outcome(Post(p.model, a)), agentRouter)
  }

  predicate Earlier(p: Post, q: Post) {
    p.model < q.model || (p.model == q.model && p.attempt < q.attempt)
  }

  /** Model by model, and attempt by attempt within a model; so none comes twice. */
  ghost predicate Ordered(posts: seq<Post>) {
    forall i, j :: 0 <= i < j < |posts| ==> Earlier(posts[i], posts[j])
  }

  predicate IsAnswer(outcome: Outcome) {
    outcome.Text? && outcome.text != ""
  }

  ghost predicate Answers(s: Script, agentRouter: bool, maxRetries: int, p: Post) {
    Reached(s, agentRouter, maxRetries, p) && s.outcome(p).Text? && s.outcome(p).text != ""
  }

  /** This model would give a text, were it asked. */
  ghost predicate Wins(s: Script, agentRouter: bool, maxRetries: int, model: nat) {
    exists a: nat :: Answers(s, agentRouter, maxRetries, Post(model, a))
  }

  /** A reply that is final, be it a text, an empty one or a failure that will not clear, ends its model's turn. */
  lemma NothingFollowsAFinalReply(s: Script, agentRouter: bool, maxRetries: int, p: Post, q: Post)
    requires !MayClear(s.outcome(p), agentRouter)
    requires Reached(s, agentRouter, maxRetries, q) && q.model == p.model
    ensures q.attempt <= p.attempt
  {
    assert Post(q.model, p.attempt) == p;
  }

  class LLMClient {
    const models: seq<string>
    const maxRetries: int
    const agentRouter: bool
    var activeModel: Option<string>

    constructor (models: seq<string>, maxRetries: int, agentRouter: bool)
      requires models != []
      ensures this.models == models && this.maxRetries == maxRetries && this.agentRouter == agentRouter
      ensures activeModel == None
    {
      this.models, this.maxRetries, this.agentRouter, activeModel := models, maxRetries, agentRouter, None;
    }

    /** The attempts at one model: posts exactly the attempts reached, in order. */
    method TryModel(s: Script, model: nat) returns (text: Option<string>, ghost posts: nat)
      requires s.builds(model)
      ensures forall a: nat :: a < posts <==> Reached(s, agentRouter, maxRetries, Post(model, a))
      ensures posts <= if maxRetries < 0 then 0 else maxRetries
      ensures text.Some? <==> Wins(s, agentRouter, maxRetries, model)
      ensures text.Some? ==> posts > 0 && s.outcome(Post(model, posts - 1)) == Text(text.value) && text.value != ""
    {
      posts := 0;
      var attempt := 0;
      while attempt < maxRetries
        invariant attempt <= (if maxRetries < 0 then 0 else maxRetries) && posts == attempt
        invariant forall a: nat :: a < attempt ==> MayClear(s.outcome(Post(model, a)), agentRouter)
        decreases maxRetries - attempt
      {
        var outcome := s.outcome(Post(model, attempt));
        posts := posts + 1;
        if !Transient(outcome, agentRouter) {
          assert Reached(s, agentRouter, maxRetries, Post(model, attempt));
          if IsAnswer(outcome) {
            assert Answers(s, agentRouter, maxRetries, Post(model, attempt));
            return Some(outcome.text), posts;
          }
          return None, posts;
        }
        if attempt >= maxRetries - 1 {
          return None, posts;
        }
        attempt := attempt + 1;
      }
      text := None;
    }

    /** `winner` is the model that answered, or the number of models. */
    method Generate(s: Script) returns (text: Option<string>, ghost posts: seq<Post>, ghost winner: nat)
      modifies this
      ensures text.Some? <==> exists m :: 0 <= m < |models| && Wins(s, agentRouter, maxRetries, m)
      ensures winner <= |models| && (winner < |models| <==> text.Some?)
      ensures forall m: nat :: m < winner ==> !Wins(s, agentRouter, maxRetries, m)
      ensures text.Some? ==>
                && activeModel == Some(models[winner])
                && exists a: nat :: Answers(s, agentRouter, maxRetries, Post(winner, a)) &&
                                    s.outcome(Post(winner, a)) == Text(text.value)
      ensures text.None? ==> activeModel == old(activeModel)
      ensures forall p :: p in posts <==>
                p.model <= winner && p.model < |models| && Reached(s, agentRouter, maxRetries, p)
      ensures Ordered(posts)
      ensures |posts| <= |models| * if maxRetries < 0 then 0 else maxRetries
    {
      posts := [];
      ghost var bound := if maxRetries < 0 then 0 else maxRetries;
      for m := 0 to |models|
        invariant forall k: nat :: k < m ==> !Wins(s, agentRouter, maxRetries, k)
        invariant activeModel == old(activeModel)
        invariant forall p :: p in posts <==> p.model < m && Reached(s, agentRouter, maxRetries, p)
        invariant Ordered(posts) && |posts| <= m * bound
      {
        if s.builds(m) {
          ghost var made: nat;
          text, made := TryModel(s, m);
          posts := Attempted(posts, m, made);
          assert |posts| <= m * bound + bound == (m + 1) * bound;
          if text.Some? {
            activeModel := Some(models[m]);
            winner := m;
            assert Answers(s, agentRouter, maxRetries, Post(m, made - 1));
            Scaled(m + 1, |models|, bound);
            return;
          }
        }
        assert m * bound <= (m + 1) * bound;
      }
      text, winner := None, |models|;
    }
  }

  lemma Scaled(a: nat, b: nat, n: nat)
    requires a <= b
    ensures a * n <= b * n
  {
  }

  /** The posts of one more model. */
  ghost function Attempted(posts: seq<Post>, model: nat, count: nat): (r: seq<Post>)
    requires Ordered(posts) && forall p :: p in posts ==> p.model < model
    ensures Ordered(r) && |r| == |posts| + count
    ensures forall p :: p in r <==> p in posts || (p.model == model && p.attempt < count)
  {
    if count == 0 then posts
    else
      var before := Attempted(posts, model, count - 1);
      OrderedSnoc(before, Post(model, count - 1));
      before + [Post(model, count - 1)]
  }

  lemma OrderedSnoc(posts: seq<Post>, last: Post)
    requires Ordered(posts) && forall p :: p in posts ==> Earlier(p, last)
    ensures Ordered(posts + [last])
  {
  }
}
