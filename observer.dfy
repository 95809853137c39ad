/** The observer demo: a job board keeps its subscribers in subscription
    order and notifies each of them when a job is posted. A notification is
    returned as the line the job seeker writes instead of being printed. */
module Observer {

  datatype JobPost = JobPost(title: string)

  datatype JobSeeker = JobSeeker(name: string) {
    /** The line a job seeker writes on being told of a post: a greeting with
        the seeker's name, a fixed announcement, and the post's title at the
        end. */
    function Notify(post: JobPost): (line: string)
      ensures |line| == |name| + |post.title| + 21
      ensures line[..3] == "Hi " && line[3..|name| + 3] == name
      ensures line[|name| + 3..|name| + 21] == "! New job posted: "
      ensures line[|name| + 21..] == post.title
    {
      "Hi " + name + "! New job posted: " + post.title
    }
  }

  /** The notifications a post produces for a list of subscribers: one per
      subscriber, in order, all about the same post. */
  function Notifications(subscribers: seq<JobSeeker>, post: JobPost): (lines: seq<string>)
    ensures |lines| == |subscribers|
    ensures forall i :: 0 <= i < |subscribers| ==> lines[i] == subscribers[i].Notify(post)
  {
    if subscribers == [] then []
    else [subscribers[0].Notify(post)] + Notifications(subscribers[1..], post)
  }

  /** Subscribing one more seeker adds exactly its notification at the end. */
  lemma {:induction false} NotificationsAppend(a: seq<JobSeeker>, b: seq<JobSeeker>, post: JobPost)
    ensures Notifications(a + b, post) == Notifications(a, post) + Notifications(b, post)
    decreases |a|
  {
    if a == [] {
      assert a + b == b;
    } else {
      assert (a + b)[1..] == a[1..] + b;
      NotificationsAppend(a[1..], b, post);
    }
  }

  /** Different titles give different notifications to the same seeker. */
  lemma NotifyDistinguishesPosts(seeker: JobSeeker, p: JobPost, q: JobPost)
    requires p != q
    ensures seeker.Notify(p) != seeker.Notify(q)
  {
    var n := |seeker.name| + 21;
    assert seeker.Notify(p)[n..] == p.title;
    assert seeker.Notify(q)[n..] == q.title;
  }

  class JobBoard {
    var subscribers: seq<JobSeeker>

    constructor ()
      ensures subscribers == []
    {
      subscribers := [];
    }

    /** Adds an observer at the end of the list. */
    method Subscribe(observer: JobSeeker)
      modifies this
      ensures subscribers == old(subscribers) + [observer]
    {
      subscribers := subscribers + [observer];
    }

    /** Notifies every subscriber exactly once, in subscription order, of the
        same post; the subscriber list stays as it is. */
    method AddJob(post: JobPost) returns (notified: seq<string>)
      ensures notified == Notifications(subscribers, post)
      ensures subscribers == [] ==> notified == []
    {
      notified := [];
      var i := 0;
      while i < |subscribers|
        invariant 0 <= i <= |subscribers|
        invariant notified == Notifications(subscribers[..i], post)
      {
        assert subscribers[..i + 1] == subscribers[..i] + [subscribers[i]];
        NotificationsAppend(subscribers[..i], [subscribers[i]], post);
        notified := notified + [subscribers[i].Notify(post)];
        i := i + 1;
      }
      assert subscribers[..i] == subscribers;
    }
  }

  /** The demo: two seekers subscribe, then one job is posted. */
  method Demo() returns (notified: seq<string>)
    ensures notified == [JobSeeker("John Doe").Notify(JobPost("Software Engineer")),
                         JobSeeker("Jane Doe").Notify(JobPost("Software Engineer"))]
  {
    var jobBoard := new JobBoard();
    jobBoard.Subscribe(JobSeeker("John Doe"));
    jobBoard.Subscribe(JobSeeker("Jane Doe"));
    notified := jobBoard.AddJob(JobPost("Software Engineer"));
  }
}
