/**
 * The abstract effects that the setup command has on the outside world, in the
 * order it has them. Every call into a collaborator whose body is not part of
 * this model (configuration writer, compose writers, repository fetches, Docker,
 * the provisioning library) is one `Action`. Terminal output has no action except
 * the closing summary (`Summary`); the two `input` calls are `Prompt` and
 * `Pause`, and `get_container` is part of `RestartCore`. An action that gets a
 * value back from its collaborator records that value, so that the flow of data
 * between calls can be read off the trace.
 */
module Trace {
  import opened Wrappers

  datatype Action =
    | GetIpAddresses(options: map<string, string>) // get_ip_addresses(), with the label -> address map it returned
    | Prompt(answer: string)                       // one input() at the NIC prompt, with what the user typed
    | WriteConfig(address: string)                 // generate_config_file(..., external_address=address, ...)
    | Download(repo: string, path: string)         // download_github_repo(repo, path, ...)
    | WriteBuildCompose                            // write_build_compose_file()
    | WriteDevCompose                              // write_dev_compose_file()
    | WriteHubCompose(tag: string)                 // write_hub_compose_file(docker_tag)
    | Clone(branch: string, repo: string, path: string)  // clone_github_repo(branch, repo, path)
    | BuildFaction                                 // build_faction()
    | Pause                                        // input("Press enter to continue setup..")
    | Sleep(seconds: nat)                          // sleep(seconds)
    | StatusQuery(container: string, reply: Option<string>)  // get_container_status(container); None when falsy
    | CreateMigration(name: string)                // create_database_migration(name)
    | UpdateDatabase                               // update_database()
    | CreateRoles                                  // create_faction_roles()
    | CreateSystemUser                             // create_system_user()
    | CreateAdminUser                              // create_admin_user()
    | GetUserId(username: string, id: int)         // get_user_id(username), returning id
    | NewApiKey(keyType: string, userId: int, ownerId: int, key: string)  // new_api_key(...), returning key
    | CreateDirectTransport(apiKey: string)        // create_direct_transport(api_key=apiKey)
    | RestartCore(container: string)               // restart_container(get_container(container))
    | ReadConfig                                   // get_config()
    | Summary                                      // the closing "Setup complete!" output
    | Fatal(message: string)                       // error_out(message), which ends the run

  predicate IsWriteConfig(a: Action) { a.WriteConfig? }
  predicate IsDownload(a: Action) { a.Download? }
  predicate IsComposeWrite(a: Action) { a.WriteBuildCompose? || a.WriteDevCompose? || a.WriteHubCompose? }
  predicate IsSleep(a: Action) { a.Sleep? }
  predicate IsStatusQuery(a: Action) { a.StatusQuery? }
  predicate IsPrompt(a: Action) { a.Prompt? }
  predicate IsClone(a: Action) { a.Clone? }
  predicate IsRestart(a: Action) { a.RestartCore? }
  predicate IsMigrationStep(a: Action) { a.CreateMigration? || a.UpdateDatabase? }
  predicate IsProvisioningStep(a: Action)
  {
    a.CreateRoles? || a.CreateSystemUser? || a.CreateAdminUser? || a.GetUserId? || a.NewApiKey? || a.CreateDirectTransport?
  }

  /** Number of actions of `t` that satisfy `p`. */
  function CountWhere(p: Action -> bool, t: seq<Action>): nat
  {
    if t == [] then 0 else (if p(t[0]) then 1 else 0) + CountWhere(p, t[1..])
  }

  /** The actions of `t` that satisfy `p`, in trace order. */
  function Filter(p: Action -> bool, t: seq<Action>): seq<Action>
  {
    if t == [] then [] else (if p(t[0]) then [t[0]] else []) + Filter(p, t[1..])
  }

  /** Number of occurrences of exactly the action `a` in `t`. */
  function Occurrences(t: seq<Action>, a: Action): nat
  {
    multiset(t)[a]
  }

  lemma {:induction false} CountWhereConcat(p: Action -> bool, s: seq<Action>, t: seq<Action>)
    ensures CountWhere(p, s + t) == CountWhere(p, s) + CountWhere(p, t)
  {
    if s != [] {
      assert (s + t)[1..] == s[1..] + t;
      CountWhereConcat(p, s[1..], t);
    } else {
      assert s + t == t;
    }
  }

  lemma {:induction false} CountWhereNone(p: Action -> bool, t: seq<Action>)
    ensures CountWhere(p, t) == 0 <==> forall i :: 0 <= i < |t| ==> !p(t[i])
  {
    if t != [] {
      CountWhereNone(p, t[1..]);
      assert forall i :: 1 <= i < |t| ==> t[i] == t[1..][i - 1];
    }
  }

  lemma {:induction false} CountWhereAll(p: Action -> bool, t: seq<Action>)
    requires forall i :: 0 <= i < |t| ==> p(t[i])
    ensures CountWhere(p, t) == |t|
  {
    if t != [] {
      CountWhereAll(p, t[1..]);
    }
  }

  lemma NoneConcat(p: Action -> bool, s: seq<Action>, t: seq<Action>)
    requires forall i :: 0 <= i < |s| ==> !p(s[i])
    requires forall i :: 0 <= i < |t| ==> !p(t[i])
    ensures forall i :: 0 <= i < |s + t| ==> !p((s + t)[i])
  {
    forall i | 0 <= i < |s + t|
      ensures !p((s + t)[i])
    {
      if i >= |s| {
        assert (s + t)[i] == t[i - |s|];
      }
    }
  }

  lemma AllConcat(p: Action -> bool, s: seq<Action>, t: seq<Action>)
    requires forall i :: 0 <= i < |s| ==> p(s[i])
    requires forall i :: 0 <= i < |t| ==> p(t[i])
    ensures forall i :: 0 <= i < |s + t| ==> p((s + t)[i])
  {
    forall i | 0 <= i < |s + t|
      ensures p((s + t)[i])
    {
      if i >= |s| {
        assert (s + t)[i] == t[i - |s|];
      }
    }
  }

  /** Counting over a trace whose outer parts have no matching action counts its middle. */
  lemma CountWhereFrame(p: Action -> bool, pre: seq<Action>, mid: seq<Action>, post: seq<Action>)
    requires forall i :: 0 <= i < |pre| ==> !p(pre[i])
    requires forall i :: 0 <= i < |post| ==> !p(post[i])
    ensures CountWhere(p, pre + mid + post) == CountWhere(p, mid)
  {
    CountWhereConcat(p, pre + mid, post);
    CountWhereConcat(p, pre, mid);
    CountWhereNone(p, pre);
    CountWhereNone(p, post);
  }

  /** Occurrences of an action in a trace whose outer parts lack it are those of its middle. */
  lemma OccurrencesFrame(pre: seq<Action>, mid: seq<Action>, post: seq<Action>, a: Action)
    requires forall i :: 0 <= i < |pre| ==> pre[i] != a
    requires forall i :: 0 <= i < |post| ==> post[i] != a
    ensures Occurrences(pre + mid + post, a) == Occurrences(mid, a)
  {
    assert a !in pre && a !in post;
    assert multiset(pre + mid + post) == multiset(pre) + multiset(mid) + multiset(post);
  }

  lemma {:induction false} FilterConcat(p: Action -> bool, s: seq<Action>, t: seq<Action>)
    ensures Filter(p, s + t) == Filter(p, s) + Filter(p, t)
  {
    if s != [] {
      assert (s + t)[1..] == s[1..] + t;
      FilterConcat(p, s[1..], t);
    } else {
      assert s + t == t;
    }
  }

  lemma {:induction false} FilterNone(p: Action -> bool, t: seq<Action>)
    requires forall i :: 0 <= i < |t| ==> !p(t[i])
    ensures Filter(p, t) == []
  {
    if t != [] {
      FilterNone(p, t[1..]);
    }
  }

  lemma {:induction false} FilterAll(p: Action -> bool, t: seq<Action>)
    requires forall i :: 0 <= i < |t| ==> p(t[i])
    ensures Filter(p, t) == t
  {
    if t != [] {
      FilterAll(p, t[1..]);
    }
  }

  lemma {:induction false} FilterEmptyNone(p: Action -> bool, t: seq<Action>)
    requires Filter(p, t) == []
    ensures forall i :: 0 <= i < |t| ==> !p(t[i])
  {
    if t != [] {
      FilterEmptyNone(p, t[1..]);
      assert forall i :: 1 <= i < |t| ==> t[i] == t[1..][i - 1];
    }
  }

  /** Filtering a trace whose outer parts hold no matching action keeps only its middle's matches. */
  lemma FilterFrame(p: Action -> bool, pre: seq<Action>, mid: seq<Action>, post: seq<Action>)
    requires forall i :: 0 <= i < |pre| ==> !p(pre[i])
    requires forall i :: 0 <= i < |post| ==> !p(post[i])
    ensures Filter(p, pre + (mid + post)) == Filter(p, mid)
  {
    FilterConcat(p, pre, mid + post);
    FilterConcat(p, mid, post);
    FilterNone(p, pre);
    FilterNone(p, post);
    assert [] + (Filter(p, mid) + []) == Filter(p, mid);
  }

  /** Appending four segments one after the other appends their concatenation. */
  lemma AppendFour(o: seq<Action>, a: seq<Action>, b: seq<Action>, c: seq<Action>, d: seq<Action>)
    ensures o + a + b + c + d == o + (a + b + c + d)
  {
    assert o + a + b == o + (a + b);
    assert o + (a + b) + c == o + (a + b + c);
  }

  lemma AppendThree(o: seq<Action>, a: seq<Action>, b: seq<Action>, c: seq<Action>)
    ensures o + a + b + c == o + (a + b + c)
  {
    assert o + a + b == o + (a + b);
  }

  lemma Assoc(a: seq<Action>, b: seq<Action>, c: seq<Action>)
    ensures a + (b + c) == a + b + c
  {
  }
}
