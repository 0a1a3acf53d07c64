/**
 The Raft state machine as the object it is: fields updated in place, messages appended to a queue.
 Every method is proved against the function of the same name; where the code panics the object is marked.
 */
module RaftFsmClass {
  import opened RaftTypes
  import opened LogSpec
  import opened ProgressSpec
  import opened QuorumIndex
  import opened FsmSpec
  import opened FsmParts
  import opened RaftLogClass
  import opened ReplicaTableClass
  import opened ReplicaClass
  import CoreRaft

  class RaftFsm {
    const cfg: Config
    const id: Id
    const raftLog: RaftLog
    const replicas: ReplicaTable
    var term: nat
    var vote: Id
    var leader: Id
    var state: FsmState
    var pendingConf: bool
    var votes: map<Id, bool>
    var acks: set<Id>
    var msgs: seq<Message>
    var fault: bool

    ghost predicate Valid()
      reads raftLog, replicas, replicas.owner.Keys
    {
      && raftLog.Valid() && raftLog.base == 0 && raftLog.baseTerm == 0
      && replicas.Valid() && this !in replicas.owner && raftLog !in replicas.owner && replicas !in replicas.owner
    }

    ghost function View(): Fsm
      requires Valid()
      reads this, raftLog, replicas, replicas.owner.Keys
    {
      Fsm(id, term, vote, leader, state, pendingConf, raftLog.View(), raftLog.committed, raftLog.applied,
          votes, acks, replicas.View(), fault)
    }

    /** The object has come to the state `res.r` and has queued `res.out` on top of `before`. */
    ghost predicate Did(before: seq<Message>, res: Res)
      reads this, raftLog, replicas, replicas.owner.Keys
    {
      Valid() && View() == res.r && before <= msgs && Added(before, msgs) == res.out
    }

    /** The replicas are the same objects as before. */
    twostate predicate Steady()
      reads replicas
    {
      replicas.at == old(replicas.at) && replicas.owner == old(replicas.owner)
    }

    /** The replicas' objects are those from before and new ones. */
    twostate predicate Grown()
      reads replicas
    {
      forall o :: o in replicas.owner ==> o in old(replicas.owner) || fresh(o)
    }

    /** The state before storage's own state is loaded. */
    constructor (cfg: Config, id: Id, peers: map<Id, Peer>, raftLog: RaftLog)
      requires raftLog.Valid() && raftLog.base == 0 && raftLog.baseTerm == 0
      requires raftLog.committed == 0 && raftLog.applied == 0
      ensures Valid() && View() == Fresh(id, peers, raftLog.View()) && msgs == []
      ensures this.cfg == cfg && this.raftLog == raftLog && fresh(replicas) && fresh(replicas.owner.Keys)
    {
      hide RaftLog.Valid, RaftLog.View, NewProgress;
      hide ReplicaTable.Valid, ReplicaTable.View;
      this.cfg, this.id, this.raftLog := cfg, id, raftLog;
      var table := new ReplicaTable();
      table.Fill(peers);
      this.replicas := table;
      term, vote, leader, state, pendingConf := 0, NO_LEADER, NO_LEADER, StateFollower, false;
      votes, acks, msgs, fault := map[], {}, [], false;
    }

    method Send(to: Id, body: Body)
      requires Valid()
      modifies this`msgs
      ensures Valid() && View() == old(View()) && msgs == old(msgs) + [Msg(View(), to, body)]
    {
      hide ReplicaTable.Valid, ReplicaTable.View;
      msgs := msgs + [Message(id, to, term, body)];
    }

    lemma LogBounds()
      requires Valid()
      ensures raftLog.applied <= raftLog.committed <= |raftLog.View()|
    {}

    // ---- becoming something else ----

    method Reset(term: nat, lasti: nat, isLeader: bool)
      requires Valid()
      modifies this`term, this`vote, this`leader, this`votes, this`pendingConf, replicas
      ensures Grown() && Valid() && View() == FsmSpec.Reset(cfg, old(View()), term, lasti, isLeader)
      ensures this.term == term && !pendingConf
    {
      hide ReplicaTable.Valid, ReplicaTable.View;
      if this.term != term {
        this.term := term;
        vote := NO_LEADER;
      }
      leader := NO_LEADER;
      votes := map[];
      pendingConf := false;
      replicas.Renew(cfg, id, raftLog.committed, lasti, isLeader);
      assert replicas.View() == FsmSpec.Reset(cfg, old(View()), term, lasti, isLeader).replicas;
    }

    method BecomeFollower(term: nat, lead: Id)
      requires Valid()
      modifies this`term, this`vote, this`leader, this`votes, this`pendingConf, this`state, replicas
      ensures Grown() && Valid() && View() == FsmSpec.BecomeFollower(cfg, old(View()), term, lead) && this.term == term
    {
      hide ReplicaTable.Valid, ReplicaTable.View;
      Reset(term, 0, false);
      leader := lead;
      state := StateFollower;
    }

    method BecomeCandidate()
      requires Valid()
      modifies this`term, this`vote, this`leader, this`votes, this`pendingConf, this`state, this`fault, replicas
      ensures Grown() && Valid() && View() == FsmSpec.BecomeCandidate(cfg, old(View()))
    {
      hide ReplicaTable.Valid, ReplicaTable.View;
      if state == StateLeader {
        fault := true;
        return;
      }
      Reset(term + 1, 0, false);
      vote := id;
      state := StateCandidate;
    }

    /** The configuration changes among the entries not yet committed. */
    method UncommittedConfs() returns (nconf: nat)
      requires Valid()
      ensures nconf == CoreRaft.ConfsAbove(raftLog.View()[raftLog.committed..], 0)
    {
      hide ReplicaTable.Valid, ReplicaTable.View;
      var ents, compacted := raftLog.Entries(raftLog.committed + 1, NoLimit);
      assert ents == raftLog.View()[raftLog.committed..];
      nconf := NumOfPendingConf(ents);
    }

    method BecomeLeader()
      requires Valid()
      modifies this, raftLog, replicas, replicas.owner.Keys
      ensures Grown() && Valid() && View() == FsmSpec.BecomeLeader(cfg, old(View())) && msgs == old(msgs)
    {
      hide FsmSpec.Reset, FsmSpec.BecomeLeader, Opened, RaftLog.View, RaftLog.Valid;
      hide ReplicaTable.Valid, ReplicaTable.View;
      ghost var r0 := View();
      LogBounds();
      LeaderOpens(cfg, r0);
      if state == StateFollower {
        fault := true;
        return;
      }
      var lasti := raftLog.LastIndex();
      Reset(term, lasti, true);
      leader := id;
      state := StateLeader;
      acks := {};
      assert View() == FsmSpec.Reset(cfg, r0, term, lasti, true).(leader := id, state := StateLeader, acks := {});
      OpenTerm(lasti);
    }

    /** The second half of `becomeLeader`: pending changes are counted and the term's first entry appended. */
    method OpenTerm(lasti: nat)
      requires Valid() && lasti == |raftLog.View()| && !pendingConf
      modifies this, raftLog, replicas, replicas.owner.Keys
      ensures Grown() && Valid() && View() == Opened(cfg, old(View())) && msgs == old(msgs)
    {
      hide FsmSpec.AppendEntry, CoreRaft.ConfsAbove, RaftLog.View, RaftLog.Valid;
      hide ReplicaTable.Valid, ReplicaTable.View;
      var nconf := UncommittedConfs();
      if nconf > 1 {
        fault := true;
        return;
      }
      if nconf == 1 {
        pendingConf := true;
      }
      AppendEntry([Entry(term, lasti + 1, Normal([]))]);
    }

    // ---- the leader's log ----

    method AppendEntry(ents: seq<Entry>)
      requires Valid() && Numbered(ents)
      modifies this`fault, raftLog, replicas.owner.Keys
      ensures Steady() && Valid() && View() == FsmSpec.AppendEntry(cfg, old(View()), ents)
    {
      hide FsmSpec.MaybeCommit, Progress.MaybeUpdate, RaftLog.Valid, RaftLog.View, AppendEnts;
      hide ReplicaTable.Valid, ReplicaTable.View;
      replicas.Members(id);
      if id !in replicas.at {
        fault := true;
        return;
      }
      var ok := raftLog.Append(ents);
      if !ok {
        fault := true;
        return;
      }
      NoteOwn();
      var advanced := MaybeCommit();
    }

    /** The node's own replica has all of the log. */
    method NoteOwn()
      requires Valid() && id in replicas.at
      modifies replicas.owner.Keys
      ensures Steady() && Valid() && var r := old(View());
        && id in r.replicas
        && View() == r.(replicas := r.replicas[id := r.replicas[id].MaybeUpdate(|r.log|, r.committed)])
    {
      hide RaftLog.Valid, RaftLog.View, Progress.MaybeUpdate;
      hide ReplicaTable.Valid, ReplicaTable.View;
      replicas.Members(id);
      replicas.Update(id, raftLog.LastIndex(), raftLog.committed);
    }

    /** Commits what a majority has, if it is of this term. */
    method MaybeCommit() returns (advanced: bool)
      requires Valid()
      modifies this`fault, raftLog`committed, replicas.owner.Keys
      ensures Steady() && Valid() && View() == FsmSpec.MaybeCommit(old(View()))
      ensures advanced == Commits(old(View()))
    {
      hide RaftLog.Valid, RaftLog.View, Agreed, Matches;
      hide ReplicaTable.Valid, ReplicaTable.View;
      replicas.Members(id);
      if |replicas.at| == 0 {
        fault := true;
        return false;
      }
      assert View().replicas != map[];
      advanced := CommitAgreed();
      if state == StateLeader && id in replicas.at {
        replicas.SetCommitted(id, raftLog.committed);
      }
    }

    /** The commit index goes up to what a majority has, if it is of this term. */
    method CommitAgreed() returns (advanced: bool)
      requires Valid() && View().replicas != map[]
      modifies this`fault, raftLog`committed
      ensures advanced == Commits(old(View()))
      ensures var r := old(View()); var mci := Agreed(Matches(r.replicas));
        Valid() && View() == if !Commits(r) then r else if mci > |r.log| then r.(fault := true) else r.(committed := mci)
    {
      hide RaftLog.Valid, RaftLog.View;
      hide ReplicaTable.Valid, ReplicaTable.View;
      var mis := replicas.MatchIndexes();
      assert mis.Keys == replicas.View().Keys && replicas.View().Keys != {};
      var mci := PickAgreed(mis);
      var panic;
      advanced, panic := raftLog.MaybeCommit(mci, term);
      if panic {
        fault := true;
        advanced := true;
      }
    }

    // ---- sending ----

    method SendAppend(to: Id)
      requires Valid()
      modifies this`fault, this`msgs, replicas.owner.Keys
      ensures Steady() && Did(old(msgs), FsmSpec.SendAppend(cfg, old(View()), to))
    {
      hide RaftLog.Valid, RaftLog.View, Batch, TermIn, Added;
      hide ReplicaTable.Valid, ReplicaTable.View, Replica.Valid, Replica.View;
      AddedNone(msgs);
      replicas.Members(to);
      if to !in replicas.at {
        fault := true;
        return;
      }
      replicas.Facts(to);
      assert replicas.View() == replicas.View()[to := replicas.View()[to]];
      var pr := replicas.at[to];
      if pr.IsPaused() {
        return;
      }
      if pr.next < 1 {
        fault := true;
        return;
      }
      var next := pr.next;
      var term, ents := ToSend(next);
      Send(to, ReqAppend(next - 1, term, raftLog.committed, ents));
      AddedOne(old(msgs), old(msgs), msgs[|old(msgs)|]);
      replicas.RecordSent(to, ents);
    }

    /** What an append request from index `next` on holds. */
    method ToSend(next: nat) returns (prevTerm: nat, ents: seq<Entry>)
      requires Valid() && next >= 1
      ensures prevTerm == TermAt(View().log, next - 1) && ents == Batch(cfg, View().log, next)
    {
      hide ReplicaTable.Valid, ReplicaTable.View;
      prevTerm := raftLog.Term(next - 1);
      var compacted;
      ents, compacted := raftLog.Entries(next, Bytes(cfg.maxSizePerMsg));
    }

    method BcastAppend()
      requires Valid()
      modifies this`fault, this`msgs, replicas.owner.Keys
      ensures Steady() && Did(old(msgs), FsmSpec.BcastAppend(cfg, old(View())))
    {
      hide ReplicaTable.Valid, ReplicaTable.View;
      ghost var r0 := View();
      hide BcastPart, FsmSpec.SendAppend, FsmSpec.BcastAppend, RaftLog.Valid, RaftLog.View, Added;
      replicas.Members(id);
      var others := replicas.at.Keys - {id};
      var left := others;
      BcastNone(cfg, r0, others);
      AddedNone(msgs);
      while left != {}
        invariant left <= others
        invariant Did(old(msgs), BcastPart(cfg, r0, others - left))
        decreases |left|
      {
        var k :| k in left;
        ghost var before := msgs;
        BcastMore(cfg, r0, others, left, k);
        SendAppend(k);
        AddedMore(old(msgs), before, msgs);
        left := left - {k};
      }
      BcastAll(cfg, r0);
    }

    /** One message to every other replica. */
    method SendOthers(body: Body)
      requires Valid()
      modifies this`msgs
      ensures Did(old(msgs), Res(old(View()), ToOthers(old(View()), body)))
    {
      hide RaftLog.Valid, RaftLog.View, Added, ToEach, ToOthers;
      hide ReplicaTable.Valid, ReplicaTable.View;
      ghost var r0 := View();
      replicas.Members(id);
      var others := replicas.at.Keys - {id};
      var left := others;
      AddedNone(msgs);
      EachOther(r0, body);
      while left != {}
        invariant left <= others
        invariant Did(old(msgs), Res(r0, ToEach(r0, body, others - left)))
        decreases |left|
      {
        var k :| k in left;
        EachMore(r0, body, others, left, k);
        AddedOne(old(msgs), msgs, Msg(r0, k, body));
        Send(k, body);
        left := left - {k};
      }
    }

    // ---- elections ----

    method Poll(from: Id, v: bool) returns (granted: nat)
      requires Valid()
      modifies this`votes
      ensures Valid() && View() == FsmSpec.Poll(old(View()), from, v) && granted == |Granted(votes)|
    {
      hide ReplicaTable.Valid, ReplicaTable.View;
      if from !in votes {
        votes := votes[from := v];
      }
      granted := CountGranted();
    }

    method CountGranted() returns (granted: nat)
      ensures granted == |Granted(votes)|
    {
      granted := 0;
      var left := votes.Keys;
      ghost var seen: set<Id> := {};
      while left != {}
        invariant left <= votes.Keys && seen == Granted(votes) - left && granted == |seen|
        decreases |left|
      {
        var k :| k in left;
        if votes[k] {
          granted := granted + 1;
          seen := seen + {k};
        }
        left := left - {k};
      }
      assert seen == Granted(votes);
    }

    method BecomeElectionAck()
      requires Valid()
      modifies this, raftLog, replicas, replicas.owner.Keys
      ensures Grown() && Did(old(msgs), FsmSpec.BecomeElectionAck(cfg, old(View())))
    {
      hide FsmSpec.Reset, FsmSpec.BecomeLeader, RaftLog.Valid, RaftLog.View, Added, ToOthers;
      hide ReplicaTable.Valid, ReplicaTable.View;
      AddedNone(msgs);
      acks := {id};
      replicas.Members(id);
      if |acks| >= QuorumSize(|replicas.at|) {
        BecomeLeader();
        return;
      }
      Reset(term, 0, false);
      state := StateElectionAck;
      SendOthers(ReqElectAck);
    }

    method Campaign(force: bool)
      requires Valid()
      modifies this, raftLog, replicas, replicas.owner.Keys
      ensures Grown() && Did(old(msgs), FsmSpec.Campaign(cfg, old(View()), force))
    {
      hide FsmSpec.BecomeCandidate, FsmSpec.BecomeElectionAck, FsmSpec.BecomeLeader, FsmSpec.Poll, RaftLog.Valid, RaftLog.View, Added, ToOthers, TermIn;
      hide ReplicaTable.Valid, ReplicaTable.View;
      AddedNone(msgs);
      BecomeCandidate();
      var granted := Poll(id, true);
      replicas.Members(id);
      if QuorumSize(|replicas.at|) == granted {
        if cfg.leaseCheck {
          BecomeElectionAck();
        } else {
          BecomeLeader();
        }
        return;
      }
      var li := raftLog.LastIndex();
      SendOthers(ReqVote(force, li, raftLog.Term(li)));
    }

    /** The Hup message. */
    method Hup(force: bool)
      requires Valid()
      modifies this, raftLog, replicas, replicas.owner.Keys
      ensures Grown() && Did(old(msgs), FsmSpec.Hup(cfg, old(View()), force))
    {
      hide FsmSpec.Campaign, RaftLog.View, RaftLog.Valid, Added, CoreRaft.ConfsAbove;
      hide ReplicaTable.Valid, ReplicaTable.View;
      LogBounds();
      AddedNone(msgs);
      replicas.Members(id);
      if state == StateLeader || id !in replicas.at {
        return;
      }
      var n := UnappliedConfs();
      if n != 0 {
        return;
      }
      Campaign(force);
    }

    /** The configuration changes among the committed entries still to be applied. */
    method UnappliedConfs() returns (n: nat)
      requires Valid()
      ensures n == CoreRaft.ConfsAbove(raftLog.View()[raftLog.applied..raftLog.committed], 0)
    {
      hide ReplicaTable.Valid, ReplicaTable.View;
      var ents, compacted, panic := raftLog.Slice(raftLog.applied + 1, raftLog.committed + 1, NoLimit);
      assert ents == raftLog.View()[raftLog.applied..raftLog.committed];
      n := NumOfPendingConf(ents);
    }

    // ---- one message ----

    method HandleAppendEntries(from: Id, index: nat, logTerm: nat, commit: nat, ents: seq<Entry>)
      requires Valid()
      modifies this`msgs, this`fault, raftLog
      ensures Did(old(msgs), HandleAppend(cfg, old(View()), from, index, logTerm, commit, ents))
    {
      hide RaftLog.Valid, RaftLog.View, Added, LogSpec.MaybeAppend;
      hide ReplicaTable.Valid, ReplicaTable.View;
      AddedNone(msgs);
      if index < raftLog.committed {
        AddedOne(msgs, msgs, Msg(View(), from, RespAppend(false, raftLog.committed, raftLog.committed, 0)));
        Send(from, RespAppend(false, raftLog.committed, raftLog.committed, 0));
        return;
      }
      if !Consecutive(ents, index) {
        fault := true;
        return;
      }
      var last, ok, panic := raftLog.MaybeAppend(index, logTerm, commit, ents);
      if panic {
        fault := true;
      }
      if ok {
        AddedOne(msgs, msgs, Msg(View(), from, RespAppend(false, last, raftLog.committed, 0)));
        Send(from, RespAppend(false, last, raftLog.committed, 0));
      } else {
        AddedOne(msgs, msgs, Msg(View(), from, RespAppend(true, index, raftLog.committed, raftLog.LastIndex())));
        Send(from, RespAppend(true, index, raftLog.committed, raftLog.LastIndex()));
      }
    }

    method Reply(to: Id, body: Body)
      requires Valid()
      modifies this`msgs
      ensures Did(old(msgs), Res(old(View()), {Msg(old(View()), to, body)}))
    {
      hide ReplicaTable.Valid, ReplicaTable.View;
      AddedNone(msgs);
      AddedOne(msgs, msgs, Msg(View(), to, body));
      Send(to, body);
    }

    method PriorityOf(k: Id, unknown: nat) returns (p: nat)
      requires Valid()
      ensures p == FsmSpec.Priority(View(), k, unknown)
    {
      hide RaftLog.Valid, RaftLog.View;
      hide ReplicaTable.Valid, ReplicaTable.View, Replica.Valid, Replica.View;
      replicas.Members(k);
      p := unknown;
      if k in replicas.at {
        replicas.Facts(k);
        p := replicas.at[k].peer.priority;
      }
    }

    method HandleVote(from: Id, index: nat, logTerm: nat)
      requires Valid()
      modifies this`msgs, this`vote
      ensures Did(old(msgs), FollowerVote(cfg, old(View()), from, index, logTerm))
    {
      hide RaftLog.Valid, RaftLog.View, Added;
      hide ReplicaTable.Valid, ReplicaTable.View;
      var fpri := PriorityOf(from, MAX_PRIORITY);
      var lpri := PriorityOf(id, 0);
      var newer := raftLog.IsUpToDate(index, logTerm, fpri, lpri);
      if (!cfg.leaseCheck || leader == NO_LEADER) && (vote == NO_LEADER || vote == from) && newer {
        vote := from;
        Reply(from, RespVote(false));
      } else {
        Reply(from, RespVote(true));
      }
    }

    method StepFollower(m: Message)
      requires Valid()
      modifies this, raftLog, replicas, replicas.owner.Keys
      ensures Grown() && Did(old(msgs), FsmSpec.StepFollower(cfg, old(View()), m))
    {
      hide RaftLog.Valid, RaftLog.View, Added, HandleAppend, FsmSpec.Hup, Grants;
      hide ReplicaTable.Valid, ReplicaTable.View;
      AddedNone(msgs);
      match m.body {
        case Prop(ents) =>
          if leader == NO_LEADER {
            return;
          }
          AddedOne(msgs, msgs, Message(id, leader, m.term, m.body));
          msgs := msgs + [Message(id, leader, m.term, m.body)];
        case ReqAppend(index, logTerm, commit, ents) =>
          leader := m.from;
          HandleAppendEntries(m.from, index, logTerm, commit, ents);
        case ReqHeartBeat =>
          leader := m.from;
        case ReqElectAck =>
          leader := m.from;
          Reply(m.from, RespElectAck);
        case ReqVote(_, index, logTerm) =>
          HandleVote(m.from, index, logTerm);
        case LeaseTimeout =>
          if leader == m.from {
            Hup(false);
          }
        case _ =>
      }
    }

    method StepCandidate(m: Message)
      requires Valid()
      modifies this, raftLog, replicas, replicas.owner.Keys
      ensures Grown() && Did(old(msgs), FsmSpec.StepCandidate(cfg, old(View()), m))
    {
      hide RaftLog.Valid, RaftLog.View, Added, HandleAppend, FsmSpec.BecomeFollower, CandidateVote;
      hide ReplicaTable.Valid, ReplicaTable.View;
      AddedNone(msgs);
      match m.body {
        case ReqAppend(index, logTerm, commit, ents) =>
          BecomeFollower(term, m.from);
          HandleAppendEntries(m.from, index, logTerm, commit, ents);
        case ReqHeartBeat =>
          BecomeFollower(term, m.from);
        case ReqElectAck =>
          BecomeFollower(term, m.from);
          Reply(m.from, RespElectAck);
        case ReqVote(_, _, _) =>
          Reply(m.from, RespVote(true));
        case RespVote(reject) =>
          TakeVote(m.from, !reject);
        case _ =>
      }
    }

    method TakeVote(from: Id, granted: bool)
      requires Valid()
      modifies this, raftLog, replicas, replicas.owner.Keys
      ensures Grown() && Did(old(msgs), CandidateVote(cfg, old(View()), from, granted))
    {
      hide RaftLog.Valid, RaftLog.View, Added, FsmSpec.BecomeFollower, FsmSpec.BecomeLeader, FsmSpec.BecomeElectionAck, FsmSpec.BcastAppend, FsmSpec.Poll;
      hide ReplicaTable.Valid, ReplicaTable.View;
      AddedNone(msgs);
      var gr := Poll(from, granted);
      replicas.Members(from);
      if QuorumSize(|replicas.at|) == gr {
        if cfg.leaseCheck {
          BecomeElectionAck();
        } else {
          BecomeLeader();
          BcastAppend();
        }
      } else if QuorumSize(|replicas.at|) == |votes| - gr {
        BecomeFollower(term, NO_LEADER);
      }
    }

    method StepElectionAck(m: Message)
      requires Valid()
      modifies this, raftLog, replicas, replicas.owner.Keys
      ensures Grown() && Did(old(msgs), FsmSpec.StepElectionAck(cfg, old(View()), m))
    {
      hide RaftLog.Valid, RaftLog.View, Added, HandleAppend, FsmSpec.BecomeFollower, ElectionAcked;
      hide ReplicaTable.Valid, ReplicaTable.View;
      AddedNone(msgs);
      match m.body {
        case ReqAppend(index, logTerm, commit, ents) =>
          BecomeFollower(term, m.from);
          HandleAppendEntries(m.from, index, logTerm, commit, ents);
        case ReqHeartBeat =>
          BecomeFollower(term, m.from);
        case ReqElectAck =>
          BecomeFollower(term, m.from);
          Reply(m.from, RespElectAck);
        case ReqVote(_, _, _) =>
          Reply(m.from, RespVote(true));
        case RespElectAck =>
          TakeElectAck(m.from);
        case _ =>
      }
    }

    method TakeElectAck(from: Id)
      requires Valid()
      modifies this, raftLog, replicas, replicas.owner.Keys
      ensures Grown() && Did(old(msgs), ElectionAcked(cfg, old(View()), from))
    {
      hide RaftLog.Valid, RaftLog.View, Added, FsmSpec.BecomeLeader, FsmSpec.BcastAppend;
      hide ReplicaTable.Valid, ReplicaTable.View;
      AddedNone(msgs);
      replicas.Members(from);
      if from !in replicas.at {
        fault := true;
        return;
      }
      NoteAck(from);
      replicas.Members(from);
      if |acks| >= QuorumSize(|replicas.at|) {
        BecomeLeader();
        BcastAppend();
      }
    }

    method NoteAck(from: Id)
      requires Valid() && from in replicas.at
      modifies this`acks, replicas.owner.Keys
      ensures Steady() && Valid() && var r := old(View());
        from in r.replicas && View() == r.(replicas := r.replicas[from := r.replicas[from].(active := true)], acks := r.acks + {from})
    {
      hide RaftLog.Valid, RaftLog.View;
      hide ReplicaTable.Valid, ReplicaTable.View;
      replicas.Members(from);
      replicas.MarkActive(from);
      acks := acks + {from};
    }

    /** Proposals: a second configuration change in flight is blanked. */
    method TakeProposals(ents: seq<Entry>)
      requires Valid() && Numbered(ents)
      modifies this, raftLog, replicas, replicas.owner.Keys
      ensures Grown() && Did(old(msgs), LeaderProp(cfg, old(View()), ents))
    {
      hide RaftLog.Valid, RaftLog.View, Added, FsmSpec.AppendEntry, FsmSpec.BcastAppend, Screen;
      hide ReplicaTable.Valid, ReplicaTable.View;
      AddedNone(msgs);
      replicas.Members(id);
      if id !in replicas.at || |ents| == 0 {
        return;
      }
      ScreenPlace(ents, pendingConf);
      var screened := ScreenAll(ents);
      AppendEntry(screened);
      BcastAppend();
    }

    method ScreenAll(ents: seq<Entry>) returns (screened: seq<Entry>)
      modifies this`pendingConf
      ensures screened == Screen(ents, old(pendingConf)) && pendingConf == (old(pendingConf) || AnyConf(ents))
    {
      screened := [];
      ScreenEnds(ents);
      hide Screen, AnyConf;
      for i := 0 to |ents|
        invariant Screen(ents, old(pendingConf)) == screened + Screen(ents[i..], pendingConf)
        invariant pendingConf == (old(pendingConf) || AnyConf(ents[..i]))
      {
        ScreenOne(ents, i, pendingConf);
        if ents[i].payload.Conf? {
          if pendingConf {
            screened := screened + [Entry(ents[i].term, ents[i].index, Normal([]))];
          } else {
            screened := screened + [ents[i]];
          }
          pendingConf := true;
        } else {
          screened := screened + [ents[i]];
        }
      }
    }

    method TakeReject(from: Id, index: nat, last: nat, commit: nat)
      requires Valid() && from in replicas.at
      modifies this`fault, this`msgs, replicas.owner.Keys
      ensures Steady() && Did(old(msgs), LeaderReject(cfg, old(View()), from, index, last, commit))
    {
      hide RaftLog.Valid, RaftLog.View, Added, FsmSpec.SendAppend;
      hide ReplicaTable.Valid, ReplicaTable.View;
      AddedNone(msgs);
      replicas.Members(from);
      var taken := replicas.Reject(from, index, last, commit);
      if taken {
        SendAppend(from);
      }
    }

    method TakeAck(from: Id, index: nat, commit: nat)
      requires Valid() && from in replicas.at
      modifies this`fault, this`msgs, raftLog`committed, replicas.owner.Keys
      ensures Steady() && Did(old(msgs), LeaderAck(cfg, old(View()), from, index, commit))
    {
      hide RaftLog.Valid, RaftLog.View, Added, FsmSpec.SendAppend, FsmSpec.BcastAppend, FsmSpec.MaybeCommit, Commits;
      hide ReplicaTable.Valid, ReplicaTable.View, Replica.Valid, Replica.View;
      AddedNone(msgs);
      replicas.Facts(from);
      var oldPaused := replicas.at[from].IsPaused();
      var updated := replicas.Acknowledge(from, index, commit);
      if !updated {
        return;
      }
      assert View() == WithProgress(old(View()), from, Acknowledged(old(View()).replicas[from], index, commit));
      var advanced := MaybeCommit();
      if advanced {
        BcastAppend();
      } else if oldPaused {
        SendAppend(from);
      }
    }

    method TakeHeartbeat(from: Id)
      requires Valid() && from in replicas.at
      modifies this`fault, this`msgs, replicas.owner.Keys
      ensures Steady() && from in old(View()).replicas && Did(old(msgs), LeaderHeartbeat(cfg, old(View()), from))
    {
      hide RaftLog.Valid, RaftLog.View, Added, FsmSpec.SendAppend, Progress.Full, Progress.FreeTo;
      hide ReplicaTable.Valid, ReplicaTable.View;
      replicas.Members(from);
      MakeRoom(from);
      SendMissing(from);
      Answered(from);
    }

    method Answered(from: Id)
      requires Valid() && from in replicas.at
      modifies replicas.owner.Keys
      ensures Steady() && Valid() && var r := old(View());
        && from in r.replicas && var p := r.replicas[from].(active := true);
        View() == WithProgress(r, from, if p.state != Snapshot then p.(pending := false) else p)
    {
      hide RaftLog.Valid, RaftLog.View;
      hide ReplicaTable.Valid, ReplicaTable.View;
      replicas.Members(from);
      replicas.Answered(from);
    }

    /** An append request to a replica that lacks entries or the commit index. */
    method SendMissing(from: Id)
      requires Valid() && from in replicas.at
      modifies this`fault, this`msgs, replicas.owner.Keys
      ensures Steady() && var r := old(View()); from in r.replicas && var p := r.replicas[from];
        Did(old(msgs), if !p.pending && (p.matched < |r.log| || p.committed < r.committed)
                       then FsmSpec.SendAppend(cfg, r, from) else Res(r, {}))
    {
      hide RaftLog.Valid, RaftLog.View, Added, FsmSpec.SendAppend;
      hide ReplicaTable.Valid, ReplicaTable.View, Replica.Valid, Replica.View;
      AddedNone(msgs);
      replicas.Facts(from);
      var pr := replicas.at[from];
      if !pr.pending && (pr.matched < raftLog.LastIndex() || pr.committed < raftLog.committed) {
        SendAppend(from);
      }
    }

    /** Makes room in a full window. */
    method MakeRoom(from: Id)
      requires Valid() && from in replicas.at && from in replicas.View()
      modifies this`fault, replicas.owner.Keys
      ensures Steady()
      ensures var p := old(replicas.View())[from]; var full := p.state == Replicate && p.Full();
        && Valid() && View() == WithProgress(old(View()), from, if full && p.window != [] then p.FreeTo(p.window[0]) else p)
                                  .(fault := old(fault) || (full && p.window == []))
    {
      hide ReplicaTable.Valid, ReplicaTable.View;
      var ok := replicas.MakeRoom(from);
      if !ok {
        fault := true;
      }
    }

    method StepLeader(m: Message)
      requires Valid()
      requires m.body.Prop? ==> Numbered(m.body.ents)
      modifies this, raftLog, replicas, replicas.owner.Keys
      ensures Grown() && Did(old(msgs), FsmSpec.StepLeader(cfg, old(View()), m))
    {
      hide RaftLog.Valid, RaftLog.View, Added, LeaderProp, LeaderReject, LeaderAck, LeaderHeartbeat, FsmSpec.BecomeFollower, ToOthers;
      hide ReplicaTable.Valid, ReplicaTable.View;
      AddedNone(msgs);
      if m.body.Prop? {
        TakeProposals(m.body.ents);
        return;
      }
      if m.body.ReqVote? {
        Reply(m.from, RespVote(true));
        return;
      }
      replicas.Members(m.from);
      if m.from !in replicas.at {
        return;
      }
      match m.body {
        case RespAppend(reject, index, commit, rejectIndex) =>
          replicas.MarkActive(m.from);
          if reject {
            TakeReject(m.from, index, rejectIndex, commit);
          } else {
            TakeAck(m.from, index, commit);
          }
        case RespHeartBeat =>
          TakeHeartbeat(m.from);
        case LeaseOffline =>
          SendOthers(LeaseTimeout);
          BecomeFollower(term, NO_LEADER);
        case _ =>
      }
    }

    method Dispatch(m: Message)
      requires Valid() && (m.body.Prop? ==> Numbered(m.body.ents))
      modifies this, raftLog, replicas, replicas.owner.Keys
      ensures Grown() && Did(old(msgs), FsmSpec.Dispatch(cfg, old(View()), m))
    {
      hide RaftLog.Valid, RaftLog.View, FsmSpec.StepFollower, FsmSpec.StepCandidate, FsmSpec.StepElectionAck, FsmSpec.StepLeader;
      hide ReplicaTable.Valid, ReplicaTable.View;
      match state {
        case StateFollower => StepFollower(m);
        case StateCandidate => StepCandidate(m);
        case StateElectionAck => StepElectionAck(m);
        case StateLeader => StepLeader(m);
      }
    }

    method Step(m: Message)
      requires Valid() && (m.body.Prop? ==> Numbered(m.body.ents))
      modifies this, raftLog, replicas, replicas.owner.Keys
      ensures Grown() && Did(old(msgs), FsmSpec.Step(cfg, old(View()), m))
    {
      hide RaftLog.Valid, RaftLog.View, FsmSpec.Dispatch, FsmSpec.BecomeFollower, Added;
      hide ReplicaTable.Valid, ReplicaTable.View;
      AddedNone(msgs);
      if m.term != 0 {
        if m.term > term {
          var lead := m.from;
          if m.body.ReqVote? {
            lead := NO_LEADER;
            var inLease := cfg.leaseCheck && state == StateFollower && leader != NO_LEADER;
            if leader != m.from && inLease && !m.body.force {
              Reply(leader, LeaseOffline);
              return;
            }
          }
          BecomeFollower(m.term, lead);
        } else if m.term < term {
          return;
        }
      }
      Dispatch(m);
    }

    // ---- the event loop's inputs ----

    /** A message off the wire, past the filter in front of `Step`. */
    method Receive(m: Message)
      requires Valid() && (m.body.Prop? ==> Numbered(m.body.ents))
      modifies this, raftLog, replicas, replicas.owner.Keys
      ensures Grown() && Did(old(msgs), FsmSpec.Receive(cfg, old(View()), m))
    {
      hide FsmSpec.Step, RaftLog.Valid, RaftLog.View, Added;
      hide ReplicaTable.Valid, ReplicaTable.View;
      AddedNone(msgs);
      replicas.Members(m.from);
      var known := m.from in replicas.at || (!m.IsResponse() && !m.body.ReqVote?);
      if !known && m.body.ReqVote? {
        known := raftLog.IsUpToDate(m.body.index, m.body.logTerm, 0, 0);
      }
      if !known {
        return;
      }
      match m.body {
        case ReqHeartBeat =>
          if leader == m.from && m.from != id {
            Step(m);
          }
        case RespHeartBeat =>
          if leader == id && m.from != id {
            Step(m);
          }
        case _ =>
          Step(m);
      }
    }

    /** A batch of proposals taken off the queue. */
    method Propose(payloads: seq<Payload>)
      requires Valid()
      modifies this, raftLog, replicas, replicas.owner.Keys
      ensures Grown() && Did(old(msgs), FsmSpec.Propose(cfg, old(View()), payloads))
    {
      hide FsmSpec.Step, RaftLog.Valid, RaftLog.View, Added;
      hide ReplicaTable.Valid, ReplicaTable.View;
      AddedNone(msgs);
      if leader != id {
        return;
      }
      var starti := raftLog.LastIndex() + 1;
      var ents: seq<Entry> := [];
      for i := 0 to |payloads|
        invariant |ents| == i && forall k :: 0 <= k < i ==> ents[k] == Entry(term, starti + k, payloads[k])
      {
        ents := ents + [Entry(term, starti + i, payloads[i])];
      }
      assert ents == Proposal(View(), payloads);
      Step(Message(id, NO_LEADER, 0, Prop(ents)));
    }

    /** The heartbeat tick. */
    method ResumeAll()
      requires Valid()
      modifies replicas.owner.Keys
      ensures Valid() && replicas.owner == old(replicas.owner) && View() == Resume(old(View()))
    {
      hide RaftLog.Valid, RaftLog.View;
      hide ReplicaTable.Valid, ReplicaTable.View;
      if state == StateLeader {
        replicas.Unpause(id);
        assert replicas.View() == Resume(old(View())).replicas;
      }
    }

    // ---- applying ----

    method AddPeer(peer: Peer)
      requires Valid() && peer.id != NO_LEADER
      modifies this`pendingConf, replicas, replicas.owner.Keys
      ensures Grown() && Valid() && View() == ApplyConf(cfg, old(View()), AddNode, peer).r
      ensures ApplyConf(cfg, old(View()), AddNode, peer).out == {}
    {
      hide RaftLog.Valid, RaftLog.View, Commits, FsmSpec.BecomeFollower, FsmSpec.BcastAppend, FsmSpec.MaybeCommit;
      hide ReplicaTable.Valid, ReplicaTable.View;
      pendingConf := false;
      replicas.Members(peer.id);
      if peer.id !in replicas.at {
        if state == StateLeader {
          replicas.Add(peer.id, peer, cfg.maxInflight, raftLog.LastIndex() + 1);
        } else {
          replicas.Put(peer.id, peer, 0);
        }
      }
    }

    method RemovePeer(peer: Peer)
      requires Valid() && peer.id != NO_LEADER
      modifies this, raftLog`committed, replicas, replicas.owner.Keys
      ensures Grown() && Did(old(msgs), ApplyConf(cfg, old(View()), RemoveNode, peer))
    {
      hide ApplyConf, Without, RaftLog.Valid, RaftLog.View, Added;
      hide ReplicaTable.Valid, ReplicaTable.View;
      RemoveDrops(cfg, View(), peer);
      Drop(peer.id);
      GoOnWithout(peer.id);
    }

    method GoOnWithout(k: Id)
      requires Valid()
      modifies this, raftLog`committed, replicas, replicas.owner.Keys
      ensures Grown() && Did(old(msgs), Without(cfg, old(View()), k))
    {
      hide RaftLog.Valid, RaftLog.View, Commits, FsmSpec.BecomeFollower, FsmSpec.BcastAppend, FsmSpec.MaybeCommit, Added;
      hide ReplicaTable.Valid, ReplicaTable.View;
      AddedNone(msgs);
      replicas.Members(id);
      if k == id {
        BecomeFollower(term, NO_LEADER);
      } else if state == StateLeader && |replicas.at| > 0 {
        CommitAndSend();
      }
    }

    /** A smaller majority may commit more. */
    method CommitAndSend()
      requires Valid()
      modifies this`fault, this`msgs, raftLog`committed, replicas.owner.Keys
      ensures Steady() && var r := old(View());
        Did(old(msgs), if Commits(r) then FsmSpec.BcastAppend(cfg, FsmSpec.MaybeCommit(r)) else Res(FsmSpec.MaybeCommit(r), {}))
    {
      hide RaftLog.Valid, RaftLog.View, Commits, FsmSpec.BcastAppend, FsmSpec.MaybeCommit, Added;
      hide ReplicaTable.Valid, ReplicaTable.View;
      AddedNone(msgs);
      var advanced := MaybeCommit();
      if advanced {
        BcastAppend();
      }
    }

    method Drop(k: Id)
      requires Valid()
      modifies this`pendingConf, replicas`at
      ensures Valid() && View() == old(View()).(pendingConf := false, replicas := old(View()).replicas - {k})
    {
      hide RaftLog.Valid, RaftLog.View;
      hide ReplicaTable.Valid, ReplicaTable.View;
      pendingConf := false;
      replicas.Remove(k);
    }

    method UpdatePeer(peer: Peer)
      requires Valid() && peer.id != NO_LEADER
      modifies this`pendingConf, replicas, replicas.owner.Keys
      ensures Grown() && Valid() && View() == ApplyConf(cfg, old(View()), UpdateNode, peer).r
      ensures ApplyConf(cfg, old(View()), UpdateNode, peer).out == {}
    {
      hide RaftLog.Valid, RaftLog.View, Commits, FsmSpec.BecomeFollower, FsmSpec.BcastAppend, FsmSpec.MaybeCommit;
      hide ReplicaTable.Valid, ReplicaTable.View;
      pendingConf := false;
      replicas.Members(peer.id);
      if peer.id in replicas.at {
        replicas.SetPeer(peer.id, peer);
      }
    }

    method ApplyConfChange(kind: ConfType, peer: Peer)
      requires Valid()
      modifies this, raftLog`committed, replicas, replicas.owner.Keys
      ensures Grown() && Did(old(msgs), ApplyConf(cfg, old(View()), kind, peer))
      ensures raftLog.View() == old(raftLog.View()) && raftLog.applied == old(raftLog.applied)
    {
      hide ReplicaTable.Valid, ReplicaTable.View;
      AddedNone(msgs);
      if peer.id == NO_LEADER {
        pendingConf := false;
        return;
      }
      hide ApplyConf, RaftLog.Valid, RaftLog.View, Added;
      match kind {
        case AddNode => AddPeer(peer);
        case RemoveNode => RemovePeer(peer);
        case UpdateNode => UpdatePeer(peer);
      }
    }

    /** One committed entry: handed over unless empty, and put into effect if it changes the configuration. */
    method ApplyEntry(e: Entry, handed: seq<Entry>) returns (handed': seq<Entry>)
      requires Valid()
      modifies this, raftLog`committed, replicas, replicas.owner.Keys
      ensures Grown() && Did(old(msgs), ApplyOne(cfg, old(View()), e))
      ensures raftLog.View() == old(raftLog.View()) && raftLog.applied == old(raftLog.applied)
      ensures handed' == handed + (if e.payload == Normal([]) then [] else [e])
    {
      hide ApplyConf, RaftLog.Valid, RaftLog.View, Added;
      hide ReplicaTable.Valid, ReplicaTable.View;
      AddedNone(msgs);
      match e.payload {
        case Normal(data) =>
          if |data| == 0 {
            return handed;
          }
        case Conf(kind, peer, _) =>
          ApplyConfChange(kind, peer);
      }
      return handed + [e];
    }

    /** The ready turn's `apply`. */
    method Apply() returns (handed: seq<Entry>)
      requires Valid()
      modifies this, raftLog`committed, replicas, replicas.owner.Keys
      ensures Grown() && Valid() && raftLog.View() == old(raftLog.View()) && raftLog.applied == old(raftLog.applied)
      ensures var ents := old(View().log[raftLog.applied..raftLog.committed]);
        Did(old(msgs), ApplyEnts(cfg, old(View()), ents)) && handed == Handed(ents)
    {
      hide ReplicaTable.Valid, ReplicaTable.View;
      var ents := raftLog.NextEnts(NoLimit);
      assert ents == old(View().log[raftLog.applied..raftLog.committed]);
      hide ApplyEnts, Handed;
      handed := ApplyAll(ents);
    }

    method ApplyAll(ents: seq<Entry>) returns (handed: seq<Entry>)
      requires Valid()
      modifies this, raftLog`committed, replicas, replicas.owner.Keys
      ensures Grown() && Valid() && raftLog.View() == old(raftLog.View()) && raftLog.applied == old(raftLog.applied)
      ensures Did(old(msgs), ApplyEnts(cfg, old(View()), ents)) && handed == Handed(ents)
    {
      hide ApplyEnts, ApplyOne, Handed, RaftLog.Valid, RaftLog.View, Added;
      hide ReplicaTable.Valid, ReplicaTable.View;
      ghost var r0 := View();
      ApplyNothing(cfg, r0);
      AddedNone(msgs);
      handed := [];
      assert ents[..0] == [];
      for i := 0 to |ents|
        invariant Did(old(msgs), ApplyEnts(cfg, r0, ents[..i])) && handed == Handed(ents[..i])
        invariant Grown() && raftLog.View() == r0.log && raftLog.applied == r0.applied
      {
        ghost var before := msgs;
        ApplySnoc(cfg, r0, ents[..i], ents[i]);
        HandedSnoc(ents, i);
        assert ents[..i] + [ents[i]] == ents[..i + 1];
        handed := ApplyEntry(ents[i], handed);
        AddedMore(old(msgs), before, msgs);
      }
      assert ents[..|ents|] == ents;
    }

    /** A ready turn up to the sending: persist, apply, advance. */
    method ReadyTurn() returns (handed: seq<Entry>)
      requires Valid()
      modifies this, raftLog, replicas, replicas.owner.Keys
      ensures Grown() && Did(old(msgs), Ready(cfg, old(View())))
      ensures handed == Handout(old(View()))
      ensures raftLog.stored == raftLog.View() && raftLog.unstable == []
    {
      hide RaftLog.Valid, RaftLog.View, ApplyEnts, Handed, Added;
      hide ReplicaTable.Valid, ReplicaTable.View;
      LogBounds();
      raftLog.Persist();
      assert View() == old(View());
      handed := Apply();
      LogBounds();
      var ok := raftLog.Advance();
    }

    /** `recoverCommit`: applies what is committed in chunks of limited size, until nothing is left. */
    method RecoverCommit() returns (handed: seq<Entry>)
      requires Valid() && state == StateFollower
      modifies this, raftLog`committed, raftLog`applied, replicas, replicas.owner.Keys
      ensures Grown() && Valid() && View() == Ready(cfg, old(View())).r && msgs == old(msgs)
      ensures handed == Handout(old(View()))
    {
      hide ReplicaTable.Valid, ReplicaTable.View;
      ghost var r0 := View();
      ghost var full := r0.log[r0.applied..r0.committed];
      handed := [];
      RecoverAll(cfg, r0);
      ApplyNothing(cfg, r0);
      assert full[..0] == [];
      hide Recovered, Ready, Handed, RaftLog.View, LogSpec.LimitSize;
      while raftLog.applied < raftLog.committed
        invariant Grown() && Valid() && r0.applied <= raftLog.applied <= raftLog.committed
        invariant raftLog.committed == r0.committed && raftLog.View() == r0.log && msgs == old(msgs) && state == StateFollower
        invariant View() == Recovered(cfg, r0, full, raftLog.applied - r0.applied)
        invariant handed == Handed(full[..raftLog.applied - r0.applied])
        decreases raftLog.committed - raftLog.applied
      {
        var ents := NextChunk();
        handed := RecoverChunk(r0, full, ents, handed);
      }
      assert full[..|full|] == full;
    }

    /** At most 64 MB of committed entries, and at least one. */
    method NextChunk() returns (ents: seq<Entry>)
      requires Valid() && raftLog.applied < raftLog.committed
      ensures ents != [] && ents <= View().log[raftLog.applied..raftLog.committed]
    {
      hide ReplicaTable.Valid, ReplicaTable.View;
      ents := raftLog.NextEnts(Bytes(64 * 1024 * 1024));
      LimitLongest(raftLog.View()[raftLog.applied..raftLog.committed], 64 * 1024 * 1024);
    }

    method RecoverChunk(ghost r0: Fsm, ghost full: seq<Entry>, ents: seq<Entry>, before: seq<Entry>) returns (handed: seq<Entry>)
      requires Valid() && state == StateFollower
      requires r0.state == StateFollower && r0.applied <= r0.committed <= |r0.log| && full == r0.log[r0.applied..r0.committed]
      requires r0.applied <= raftLog.applied <= raftLog.committed && raftLog.committed == r0.committed && raftLog.View() == r0.log
      requires ents <= r0.log[raftLog.applied..raftLog.committed]
      requires View() == Recovered(cfg, r0, full, raftLog.applied - r0.applied)
      requires before == Handed(full[..raftLog.applied - r0.applied])
      modifies this, raftLog`committed, raftLog`applied, replicas, replicas.owner.Keys
      ensures Grown() && Valid() && state == StateFollower && msgs == old(msgs) && raftLog.applied == old(raftLog.applied) + |ents|
      ensures raftLog.committed == r0.committed && raftLog.View() == r0.log
      ensures View() == Recovered(cfg, r0, full, raftLog.applied - r0.applied)
      ensures handed == Handed(full[..raftLog.applied - r0.applied])
    {
      hide Recovered, Handed, ApplyOne;
      hide ReplicaTable.Valid, ReplicaTable.View;
      handed := before;
      ghost var k0 := raftLog.applied - r0.applied;
      for i := 0 to |ents|
        invariant Grown() && Valid() && state == StateFollower && msgs == old(msgs) && raftLog.applied == r0.applied + k0 + i
        invariant raftLog.committed == r0.committed && raftLog.View() == r0.log
        invariant View() == Recovered(cfg, r0, full, k0 + i)
        invariant handed == Handed(full[..k0 + i])
      {
        assert ents[i] == full[k0 + i];
        handed := RecoverEntry(r0, full, k0 + i, ents[i], handed);
      }
    }

    method RecoverEntry(ghost r0: Fsm, ghost full: seq<Entry>, ghost k: nat, e: Entry, before: seq<Entry>) returns (handed: seq<Entry>)
      requires Valid() && state == StateFollower
      requires r0.state == StateFollower && r0.applied <= r0.committed <= |r0.log| && full == r0.log[r0.applied..r0.committed]
      requires k < |full| && e == full[k] && raftLog.applied == r0.applied + k && raftLog.View() == r0.log
      requires View() == Recovered(cfg, r0, full, k) && before == Handed(full[..k])
      modifies this, raftLog`committed, raftLog`applied, replicas, replicas.owner.Keys
      ensures Grown() && Valid() && state == StateFollower && msgs == old(msgs) && raftLog.applied == r0.applied + k + 1
      ensures raftLog.committed == r0.committed && raftLog.View() == r0.log
      ensures View() == Recovered(cfg, r0, full, k + 1) && handed == Handed(full[..k + 1])
    {
      hide Recovered, Handed, ApplyOne, RaftLog.View, RaftLog.Valid, Added;
      hide ReplicaTable.Valid, ReplicaTable.View;
      EntryPlace(r0.applied + k);
      RecoverOne(cfg, r0, full, k);
      RecoverState(cfg, r0, full, k + 1);
      HandedSnoc(full, k);
      handed := ApplyAt(e, before);
      AddedSome(old(msgs), msgs);
    }

    /** Recovery moves the applied index first, then applies. */
    method ApplyAt(e: Entry, before: seq<Entry>) returns (handed: seq<Entry>)
      requires Valid() && raftLog.applied < e.index <= raftLog.committed
      modifies this, raftLog`committed, raftLog`applied, replicas, replicas.owner.Keys
      ensures Grown() && Did(old(msgs), ApplyOne(cfg, old(View()).(applied := e.index), e))
      ensures raftLog.View() == old(raftLog.View()) && raftLog.applied == e.index
      ensures handed == before + (if e.payload == Normal([]) then [] else [e])
    {
      hide ApplyOne, RaftLog.View, RaftLog.Valid, Added;
      hide ReplicaTable.Valid, ReplicaTable.View;
      NoteApplied(e.index);
      handed := ApplyEntry(e, before);
    }

    method NoteApplied(i: nat)
      requires Valid() && raftLog.applied < i <= raftLog.committed
      modifies raftLog`applied
      ensures Valid() && View() == old(View()).(applied := i)
    {
      hide RaftLog.Valid, RaftLog.View;
      hide ReplicaTable.Valid, ReplicaTable.View;
      var ok := raftLog.AppliedTo(i);
    }

    /** An entry's index is its place in the log. */
    lemma EntryPlace(i: nat)
      requires Valid() && i < |raftLog.View()|
      ensures raftLog.View()[i].index == i + 1
    {
    }

    /** The rest of `newRaftFsm`: loads the hard state and the application's position, then recovers. */
    method Load(ghost peers: map<Id, Peer>, hs: HardState, applied: nat) returns (ok: bool, handed: seq<Entry>)
      requires Valid() && View() == Fresh(id, peers, raftLog.View())
      modifies this, raftLog`committed, raftLog`applied, replicas, replicas.owner.Keys
      ensures Grown() && ok == (hs.commit <= |old(View().log)|)
      ensures ok ==> Valid() && View() == Start(cfg, id, peers, hs, old(View().log), applied) && msgs == old(msgs)
      ensures ok ==> handed == Handout(Loaded(id, peers, hs, old(View().log), applied))
    {
      hide ReplicaTable.Valid, ReplicaTable.View;
      handed := [];
      ok := LoadState(peers, hs, applied);
      if ok {
        hide Ready, FsmSpec.BecomeFollower, RaftLog.View, Fresh, Loaded, Handed;
        handed := RecoverCommit();
        BecomeFollower(term, NO_LEADER);
      }
    }

    /** `loadState` and the application's position; false on a commit index beyond the log. */
    method LoadState(ghost peers: map<Id, Peer>, hs: HardState, applied: nat) returns (ok: bool)
      requires Valid() && View() == Fresh(id, peers, raftLog.View())
      modifies this`term, this`vote, raftLog`committed, raftLog`applied
      ensures ok == (hs.commit <= |old(View().log)|)
      ensures ok ==> Valid() && View() == Loaded(id, peers, hs, old(View().log), applied) && !fault && state == StateFollower
    {
      hide RaftLog.Valid, RaftLog.View;
      hide ReplicaTable.Valid, ReplicaTable.View;
      if hs != HardState(0, NO_LEADER, 0) {
        if hs.commit > raftLog.LastIndex() {
          return false;
        }
        term, vote := hs.term, hs.vote;
        SetCommitted(hs.commit);
      }
      SetApplied(applied);
      return true;
    }

    method SetCommitted(i: nat)
      requires Valid() && raftLog.applied <= i <= |raftLog.View()|
      modifies raftLog`committed
      ensures Valid() && raftLog.View() == old(raftLog.View()) && raftLog.committed == i
    {
      hide ReplicaTable.Valid, ReplicaTable.View;
      raftLog.committed := i;
    }

    method SetApplied(applied: nat)
      requires Valid() && raftLog.applied == 0
      modifies raftLog`committed, raftLog`applied
      ensures Valid() && raftLog.View() == old(raftLog.View())
      ensures var last := |raftLog.View()|;
        && raftLog.committed == (if applied == 0 then old(raftLog.committed) else if last < applied then last else Max(old(raftLog.committed), applied))
        && raftLog.applied == Min(applied, last)
    {
      hide RaftLog.Valid, RaftLog.View;
      hide ReplicaTable.Valid, ReplicaTable.View;
      if applied > 0 {
        var lasti := raftLog.LastIndex();
        var to := applied;
        if lasti == 0 {
          SetCommitted(0);
          to := 0;
        } else if lasti < applied {
          SetCommitted(lasti);
          to := lasti;
        } else if raftLog.committed < applied {
          SetCommitted(applied);
        }
        var ok := raftLog.AppliedTo(to);
      }
    }
  }
}
