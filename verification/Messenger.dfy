/** Inter-agent mail: src/messenger.c, and the requesters of a mail session from src/agent.c. */
module Messenger {
  import opened Options
  import opened Bytes

  const MAX_AGENTS: nat := 16  // TC_MAX_AGENTS
  const OWNER: string := "owner"
  const ALL: string := "all"

  datatype Mail = Mail(from: string, reply: bool, text: Text)

  //
  // Names.
  //

  function LowerChar(c: char): char {
    if 'A' <= c <= 'Z' then (c as int + 32) as char else c
  }

  function Lower(s: string): (r: string)
    ensures |r| == |s|
  {
    seq(|s|, i requires 0 <= i < |s| => LowerChar(s[i]))
  }

  /** Small models often write "@oracle". */
  function Bare(name: string): string {
    if name != [] && name[0] == '@' then name[1..] else name
  }

  /** The registered name that matches, ignoring case. */
  function Match(agents: seq<string>, name: string): (r: Option<string>)
    ensures r.Some? ==> r.value in agents && Lower(r.value) == Lower(name)
    ensures r.None? ==> forall i | 0 <= i < |agents| :: Lower(agents[i]) != Lower(name)
  {
    if agents == [] then None
    else if Lower(agents[0]) == Lower(name) then Some(agents[0])
    else
      assert forall i | 0 < i < |agents| :: agents[i] == agents[1..][i - 1];
      Match(agents[1..], name)
  }

  function Resolve(agents: seq<string>, name: Option<string>): Option<string> {
    if name.None? then None else Match(agents, Bare(name.value))
  }

  /** The names that load_agent lets through, with "owner": distinct up to case, plain, none called "all". */
  predicate GoodRegistry(agents: seq<string>) {
    && (forall i, j | 0 <= i < j < |agents| :: Lower(agents[i]) != Lower(agents[j]))
    && (forall i | 0 <= i < |agents| ::
          && agents[i] != [] && agents[i][0] != '@'
          && Lower(agents[i]) != ALL && (Lower(agents[i]) == OWNER ==> agents[i] == OWNER))
  }

  /** A registered name stands for itself, with or without "@" and in any case. */
  lemma {:induction false} MatchSelf(agents: seq<string>, k: nat, name: string)
    requires forall i, j | 0 <= i < j < |agents| :: Lower(agents[i]) != Lower(agents[j])
    requires k < |agents| && Lower(name) == Lower(agents[k])
    ensures Match(agents, name) == Some(agents[k])
  {
    if k > 0 {
      MatchSelf(agents[1..], k - 1, name);
    }
  }

  //
  // Sending.
  //

  /** What a send does: the inboxes written, or an error for the model. */
  datatype Sent = Refused | Written(to: seq<string>)

  /** Everybody but the sender and the owner. */
  function Others(agents: seq<string>, from: string): seq<string> {
    if agents == [] then []
    else
      var n := |agents| - 1;
      if agents[n] != from && agents[n] != OWNER then Others(agents[..n], from) + [agents[n]]
      else Others(agents[..n], from)
  }

  predicate ToAll(to: Option<string>) {
    to.Some? && Lower(to.value) == ALL
  }

  function Send(agents: seq<string>, from: string, to: Option<string>): Sent {
    if ToAll(to) then Written(Others(agents, from))
    else
      var name := Resolve(agents, to);
      if name.None? || name.value == OWNER || name.value == from then Refused
      else Written([name.value])
  }

  /** Another registered agent is reached under its own name, and nobody else is. */
  lemma SendReaches(agents: seq<string>, from: string, k: nat)
    requires GoodRegistry(agents) && k < |agents| && agents[k] != from && agents[k] != OWNER
    ensures Send(agents, from, Some(agents[k])) == Written([agents[k]])
    ensures Resolve(agents, Some(agents[k])) == Some(agents[k])
  {
    MatchSelf(agents, k, agents[k]);
  }

  //
  // Inboxes: a directory per agent, in no particular order.
  //

  type Inboxes = map<string, multiset<Mail>>

  function Put(boxes: Inboxes, to: string, mail: Mail): Inboxes {
    if to in boxes then boxes[to := boxes[to] + multiset{mail}] else boxes
  }

  /** A copy for every inbox in `to` that can be written. */
  function PutAll(boxes: Inboxes, to: seq<string>, mail: Mail, written: string -> bool): Inboxes {
    if to == [] then boxes
    else
      var n := |to| - 1;
      var rest := PutAll(boxes, to[..n], mail, written);
      if written(to[n]) then Put(rest, to[n], mail) else rest
  }

  lemma LastIn(s: seq<string>, a: string)
    requires s != [] && Distinct(s)
    ensures var n := |s| - 1; a in s[..n] <==> a in s && a != s[n]
  {
    var n := |s| - 1;
    assert s == s[..n] + [s[n]];
  }

  lemma {:induction false} PutAllOnce(boxes: Inboxes, to: seq<string>, mail: Mail, written: string -> bool)
    requires Distinct(to)
    ensures PutAll(boxes, to, mail, written).Keys == boxes.Keys
    ensures forall a | a in boxes ::
              PutAll(boxes, to, mail, written)[a]
              == if a in to && written(a) then boxes[a] + multiset{mail} else boxes[a]
  {
    if to != [] {
      var n := |to| - 1;
      PutAllOnce(boxes, to[..n], mail, written);
      var rest := PutAll(boxes, to[..n], mail, written);
      forall a | a in boxes
        ensures PutAll(boxes, to, mail, written)[a]
             == if a in to && written(a) then boxes[a] + multiset{mail} else boxes[a]
      {
        LastIn(to, a);
        assert rest[a] == if a in to[..n] && written(a) then boxes[a] + multiset{mail} else boxes[a];
      }
    }
  }

  lemma {:induction false} OthersAre(agents: seq<string>, from: string)
    requires Distinct(agents)
    ensures Distinct(Others(agents, from))
    ensures forall a :: a in Others(agents, from) <==> a in agents && a != from && a != OWNER
  {
    if agents != [] {
      var n := |agents| - 1;
      OthersAre(agents[..n], from);
      assert agents == agents[..n] + [agents[n]] && agents[n] !in agents[..n];
    }
  }

  /** A broadcast leaves one copy with every other agent whose inbox can be written, and changes nothing else. */
  lemma BroadcastReaches(boxes: Inboxes, agents: seq<string>, from: string, mail: Mail, written: string -> bool)
    requires Distinct(agents)
    ensures var after := PutAll(boxes, Others(agents, from), mail, written);
            && after.Keys == boxes.Keys
            && forall a | a in boxes :: after[a] == if a in agents && a != from && a != OWNER && written(a)
                                                    then boxes[a] + multiset{mail} else boxes[a]
  {
    OthersAre(agents, from);
    PutAllOnce(boxes, Others(agents, from), mail, written);
  }

  /** Every mail comes from another registered agent. */
  predicate GoodMail(agents: seq<string>, boxes: Inboxes) {
    forall a, m | a in boxes && m in boxes[a] :: m.from in agents && m.from != OWNER && m.from != a
  }

  lemma {:induction false} PutAllGood(
    agents: seq<string>, boxes: Inboxes, to: seq<string>, mail: Mail, written: string -> bool)
    requires GoodMail(agents, boxes) && mail.from in agents && mail.from != OWNER && mail.from !in to
    ensures GoodMail(agents, PutAll(boxes, to, mail, written))
    ensures PutAll(boxes, to, mail, written).Keys == boxes.Keys
  {
    if to != [] {
      PutAllGood(agents, boxes, to[..|to| - 1], mail, written);
    }
  }

  //
  // The registry and the inboxes, changed in place.
  //

  class Post {
    var agents: seq<string>
    var boxes: Inboxes

    ghost predicate Valid()
      reads this
    {
      GoodRegistry(agents) && |agents| <= MAX_AGENTS + 1 && GoodMail(agents, boxes)
    }

    constructor ()
      ensures Valid() && agents == [] && boxes == map[]
    {
      agents, boxes := [], map[];
    }

    method ResolveName(name: Option<string>) returns (r: Option<string>)
      ensures r == Resolve(agents, name)
    {
      if name.None? {
        return None;
      }
      var bare := Bare(name.value);
      for i := 0 to |agents|
        invariant Match(agents, bare) == Match(agents[i..], bare)
      {
        assert agents[i..][1..] == agents[i + 1..];
        if Lower(agents[i]) == Lower(bare) {
          return Some(agents[i]);
        }
      }
      return None;
    }

    /** A name that load_agent accepted, or "owner", which has no inbox. */
    method Register(name: string)
      requires Valid() && GoodRegistry([name])
      modifies this
      ensures Valid()
      ensures var added := Match(old(agents), name).None? && |old(agents)| <= MAX_AGENTS;
              && agents == (if added then old(agents) + [name] else old(agents))
              && boxes == if added && name != OWNER && name !in old(boxes)
                          then old(boxes)[name := multiset{}] else old(boxes)
    {
      assert [name][0] == name && Bare(name) == name;
      var known := ResolveName(Some(name));
      if known.Some? || |agents| >= MAX_AGENTS + 1 {
        return;
      }
      agents := agents + [name];
      if name != OWNER && name !in boxes {
        boxes := boxes[name := multiset{}];
      }
    }

    /** send_one: a failed write leaves the inbox as it was. */
    method SendOne(to: string, mail: Mail, ok: bool)
      modifies this`boxes
      ensures boxes == if ok then Put(old(boxes), to, mail) else old(boxes)
    {
      if ok && to in boxes {
        boxes := boxes[to := boxes[to] + multiset{mail}];
      }
    }

    /** The loop of messenger_send for "all". */
    method SendToAll(mail: Mail, written: string -> bool)
      requires Valid() && mail.from in agents && mail.from != OWNER
      modifies this`boxes
      ensures Valid() && boxes == PutAll(old(boxes), Others(agents, mail.from), mail, written)
    {
      ghost var was := boxes;
      for i := 0 to |agents|
        invariant boxes == PutAll(was, Others(agents[..i], mail.from), mail, written)
      {
        assert agents[..i + 1][..i] == agents[..i];
        if agents[i] != mail.from && agents[i] != OWNER {
          ghost var done := Others(agents[..i], mail.from);
          assert (done + [agents[i]])[..|done|] == done;
          SendOne(agents[i], mail, written(agents[i]));
        }
      }
      assert agents[..|agents|] == agents;
      GoodIsDistinct(agents);
      OthersAre(agents, mail.from);
      PutAllGood(agents, was, Others(agents, mail.from), mail, written);
    }

    /** messenger_send; `error` is whether the model is told that the message did not go out. */
    method SendMail(to: Option<string>, mail: Mail, written: string -> bool) returns (sent: Sent, error: bool)
      requires Valid() && mail.from in agents && mail.from != OWNER
      modifies this`boxes
      ensures Valid() && sent == Send(agents, mail.from, to)
      ensures boxes == if sent.Written? then PutAll(old(boxes), sent.to, mail, written) else old(boxes)
      ensures error <==> sent.Refused? || (!ToAll(to) && !written(sent.to[0]))
    {
      if ToAll(to) {
        SendToAll(mail, written);
        return Written(Others(agents, mail.from)), false;
      }
      var name := ResolveName(to);
      if name.None? || name.value == OWNER || name.value == mail.from {
        return Refused, true;
      }
      PutAllGood(agents, boxes, [name.value], mail, written);
      assert [name.value][..0] == [];
      SendOne(name.value, mail, written(name.value));
      return Written([name.value]), !written(name.value);
    }

    /** messenger_receive: all that was there, in the order `listing` of the directory; nothing is left. */
    method Receive(name: string, listing: seq<Mail>) returns (mails: seq<Mail>)
      requires Valid() && name in boxes && multiset(listing) == boxes[name]
      modifies this`boxes
      ensures Valid() && multiset(mails) == old(boxes)[name] && boxes == old(boxes)[name := multiset{}]
      ensures forall i | 0 <= i < |mails| :: mails[i].from in agents && mails[i].from != OWNER && mails[i].from != name
    {
      ghost var was := boxes;
      mails := [];
      for i := 0 to |listing|
        invariant mails == listing[..i] && boxes == was[name := multiset(listing[i..])]
      {
        DropFirst(listing, i);
        mails := mails + [listing[i]];
        boxes := boxes[name := boxes[name] - multiset{listing[i]}];
      }
      assert mails == listing;
      EmptiedGood(agents, was, name, listing);
    }
  }

  lemma DropFirst(s: seq<Mail>, i: nat)
    requires i < |s|
    ensures multiset(s[i..]) - multiset{s[i]} == multiset(s[i + 1..])
  {
    assert s[i..] == [s[i]] + s[i + 1..];
  }

  lemma EmptiedGood(agents: seq<string>, boxes: Inboxes, name: string, mails: seq<Mail>)
    requires GoodMail(agents, boxes) && name in boxes && multiset(mails) == boxes[name]
    ensures GoodMail(agents, boxes[name := multiset{}])
    ensures forall i | 0 <= i < |mails| :: mails[i].from in agents && mails[i].from != OWNER && mails[i].from != name
  {
    forall i | 0 <= i < |mails|
      ensures mails[i].from in agents && mails[i].from != OWNER && mails[i].from != name
    {
      assert mails[i] in multiset(mails);
    }
  }

  lemma GoodIsDistinct(agents: seq<string>)
    requires GoodRegistry(agents)
    ensures Distinct(agents)
  {
    forall i, j | 0 <= i < j < |agents|
      ensures agents[i] != agents[j]
    {
      assert Lower(agents[i]) != Lower(agents[j]);
    }
  }

  //
  // Who waits for an answer.
  //

  /** Distinct senders of requests, in the order of their first one. */
  function Requesters(mails: seq<Mail>): seq<string> {
    if mails == [] then []
    else
      var n := |mails| - 1;
      var known := Requesters(mails[..n]);
      if mails[n].reply || mails[n].from in known || |known| >= MAX_AGENTS then known else known + [mails[n].from]
  }

  /** parse_trigger for mail, with its two loops. */
  method ParseTrigger(mails: seq<Mail>) returns (requesters: seq<string>, replyBatch: bool)
    ensures requesters == Requesters(mails) && replyBatch == (requesters == [])
  {
    requesters := [];
    for i := 0 to |mails|
      invariant requesters == Requesters(mails[..i])
    {
      assert mails[..i + 1][..i] == mails[..i];
      if !mails[i].reply {
        var known := false;
        for k := 0 to |requesters|
          invariant known == (mails[i].from in requesters[..k])
        {
          known := known || requesters[k] == mails[i].from;
          assert requesters[..k + 1] == requesters[..k] + [requesters[k]];
        }
        assert requesters[..|requesters|] == requesters;
        if !known && |requesters| < MAX_AGENTS {
          requesters := requesters + [mails[i].from];
        }
      }
    }
    assert mails[..|mails|] == mails;
    replyBatch := requesters == [];
  }

  predicate Distinct(s: seq<string>) {
    forall i, j | 0 <= i < j < |s| :: s[i] != s[j]
  }

  lemma {:induction false} RequestersDistinct(mails: seq<Mail>)
    ensures Distinct(Requesters(mails)) && |Requesters(mails)| <= MAX_AGENTS
    ensures forall r | r in Requesters(mails) :: exists i :: 0 <= i < |mails| && mails[i].from == r && !mails[i].reply
  {
    if mails != [] {
      var n := |mails| - 1;
      RequestersDistinct(mails[..n]);
      forall r | r in Requesters(mails)
        ensures exists i :: 0 <= i < |mails| && mails[i].from == r && !mails[i].reply
      {
        if r in Requesters(mails[..n]) {
          var i :| 0 <= i < n && mails[..n][i].from == r && !mails[..n][i].reply;
          assert mails[i].from == r;
        } else {
          assert mails[n].from == r;
        }
      }
    }
  }

  /** They are kept in the order in which they first asked, and nobody is passed over while there is a slot. */
  lemma {:induction false} FirstComeFirstKept(mails: seq<Mail>, k: nat)
    requires k < |mails|
    ensures Requesters(mails[..k]) <= Requesters(mails)
    ensures !mails[k].reply ==> mails[k].from in Requesters(mails[..k + 1]) || |Requesters(mails[..k])| >= 16
  {
    assert mails[..k + 1][..k] == mails[..k];
    var init := mails[..|mails| - 1];
    if k < |init| {
      FirstComeFirstKept(init, k);
      assert init[..k] == mails[..k] && init[..k + 1] == mails[..k + 1];
    } else {
      assert init == mails[..k] && mails[..k + 1] == mails;
    }
  }

  lemma {:induction false} SubsetSize(s: seq<string>, senders: set<string>)
    requires Distinct(s) && forall i | 0 <= i < |s| :: s[i] in senders
    ensures |s| <= |senders|
    ensures forall x | x in senders && x !in s :: |s| < |senders|
  {
    if s != [] {
      var n := |s| - 1;
      SubsetSize(s[..n], senders - {s[n]});
      forall x | x in senders && x !in s
        ensures |s| < |senders|
      {
        assert x in senders - {s[n]} && x !in s[..n];
      }
    }
  }

  /** With at most 16 senders the list takes everybody who sent a request. */
  lemma {:induction false} NobodyLeftOut(mails: seq<Mail>, senders: set<string>)
    requires |senders| <= MAX_AGENTS && forall i | 0 <= i < |mails| :: mails[i].from in senders
    ensures forall i | 0 <= i < |mails| && !mails[i].reply :: mails[i].from in Requesters(mails)
  {
    if mails != [] {
      var n := |mails| - 1;
      var init := mails[..n];
      NobodyLeftOut(init, senders);
      RequestersDistinct(init);
      var known := Requesters(init);
      forall i | 0 <= i < |known|
        ensures known[i] in senders
      {
        assert known[i] in known;
        var j :| 0 <= j < |init| && init[j].from == known[i] && !init[j].reply;
        assert mails[j].from in senders;
      }
      SubsetSize(known, senders);
      forall i | 0 <= i < |mails| && !mails[i].reply
        ensures mails[i].from in Requesters(mails)
      {
        if i < n {
          assert init[i].from in known;
        }
      }
    }
  }

  //
  // Names as people and models write them.
  //

  function UpperChar(c: char): char {
    if 'a' <= c <= 'z' then (c as int - 32) as char else c
  }

  function Upper(s: string): string {
    seq(|s|, i requires 0 <= i < |s| => UpperChar(s[i]))
  }

  lemma CapitalsAreTheSame(s: string)
    ensures Lower(Upper(s)) == Lower(s)
  {
  }

  /** A registered name is found in capitals, and with "@" in front. */
  lemma SpellingsAreFound(agents: seq<string>, k: nat)
    requires GoodRegistry(agents) && k < |agents|
    ensures Resolve(agents, Some(Upper(agents[k]))) == Some(agents[k])
    ensures Resolve(agents, Some(['@'] + agents[k])) == Some(agents[k])
    ensures Resolve(agents, Some(['@'] + Upper(agents[k]))) == Some(agents[k])
  {
    var name := agents[k];
    CapitalsAreTheSame(name);
    assert Upper(name)[0] != '@';
    assert (['@'] + name)[1..] == name && (['@'] + Upper(name))[1..] == Upper(name);
    MatchSelf(agents, k, name);
    MatchSelf(agents, k, Upper(name));
  }

  /** Nobody is found under a name that no agent has. */
  lemma StrangersAreRefused(agents: seq<string>, from: string, to: string)
    requires to != [] && to[0] != '@' && Lower(to) != ALL
    requires forall i | 0 <= i < |agents| :: Lower(agents[i]) != Lower(to)
    ensures Resolve(agents, Some(to)) == None && Send(agents, from, Some(to)) == Refused
  {
  }

  /** A message to "all", in any case, is a broadcast. */
  lemma AllIsEverybody(agents: seq<string>, from: string)
    ensures Send(agents, from, Some("all")) == Written(Others(agents, from))
    ensures Send(agents, from, Some("ALL")) == Written(Others(agents, from))
  {
    assert Lower("all") == ALL && Lower("ALL") == ALL;
  }
}
