/**
 * The in-process map from a Slack thread (its `thread_ts`) to the OpenAI
 * thread that carries its conversation (`slack_thread_to_openai_thread`),
 * with the find-or-create step of process_with_assistant.
 */
module Threads {
  import opened Remote

  /** The id find-or-create hands back, and the map after it. */
  datatype Resolved = Resolved(id: Reply<string>, threads: map<string, string>)

  /**
   * Find-or-create as a function of the map before the call; `created` is
   * what `beta.threads.create()` returns if it is called.
   */
  function Resolve(threads: map<string, string>, key: string, created: Reply<string>): (r: Resolved)
    ensures forall k | k in threads :: k in r.threads && r.threads[k] == threads[k]
    ensures r.threads.Keys <= threads.Keys + {key}
    ensures r.id.Ok? ==> key in r.threads && r.threads[key] == r.id.value
    ensures r.id.Raised? ==> r.threads == threads
    ensures key in threads ==> r.id == Ok(threads[key]) && r.threads == threads
    ensures key !in threads ==> r.id == created
    ensures key !in threads && created.Ok? ==> r.threads.Keys == threads.Keys + {key}
  {
    if key in threads then Resolved(Ok(threads[key]), threads)
    else if created.Ok? then Resolved(created, threads[key := created.value])
    else Resolved(created, threads)
  }

  /**
   * Once a key is mapped, find-or-create returns the same id and leaves the
   * map alone, whatever a further create call would have returned.
   */
  lemma ResolveIdempotent(threads: map<string, string>, key: string, created: Reply<string>, again: Reply<string>)
    ensures var r := Resolve(threads, key, created);
            r.id.Ok? ==> Resolve(r.threads, key, again) == Resolved(r.id, r.threads)
  {
  }

  /** The map and a count of the `beta.threads.create()` calls made through it. */
  class ThreadStore {
    var threads: map<string, string>
    var creates: nat

    /** Every stored OpenAI thread came from a create call of its own. */
    ghost predicate Valid()
      reads this
    {
      |threads| <= creates
    }

    constructor ()
      ensures Valid() && threads == map[] && creates == 0
    {
      threads := map[];
      creates := 0;
    }

    /**
     * Returns the mapped id, or calls create once and stores what it
     * returns; a failed create leaves the map as it was.
     */
    method FindOrCreate(key: string, created: Reply<string>) returns (id: Reply<string>)
      requires Valid()
      modifies this
      ensures Valid()
      ensures Resolved(id, threads) == Resolve(old(threads), key, created)
      ensures creates == old(creates) + (if key in old(threads) then 0 else 1)
    {
      if key in threads {
        id := Ok(threads[key]);
      } else {
        creates := creates + 1;
        id := created;
        if created.Ok? {
          threads := threads[key := created.value];
        }
      }
    }
  }
}
