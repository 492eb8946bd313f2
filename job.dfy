/**
 * Job postings: their category and status enums, the posting entity with
 * its view counter, and the service that lists, shows, creates, edits and
 * deletes postings.
 */
module Jobs {
  import opened Common
  import opened ErrorCodes
  import opened JavaLang
  import opened Users

  // ---------------------------------------------------------------------
  // Enums
  // ---------------------------------------------------------------------

  datatype JobStatus = Recruiting | Closed

  const StatusValues: seq<JobStatus> := [Recruiting, Closed]

  function StatusDisplayName(s: JobStatus): string
  {
    match s
    case Recruiting => "모집중"
    case Closed => "마감됨"
  }

  /** `ordinal()`: the status's position in `values()`. */
  function StatusIndex(s: JobStatus): (i: nat)
    ensures i < |StatusValues| && StatusValues[i] == s
  {
    match s
    case Recruiting => 0
    case Closed => 1
  }

  /** `JobStatus.fromDisplayName`: None is the IllegalArgumentException an unknown name raises. */
  function StatusFromDisplayName(name: string): (r: Option<JobStatus>)
    ensures r.Some? ==> StatusDisplayName(r.value) == name
    ensures r.None? <==> forall s: JobStatus :: StatusDisplayName(s) != name
  {
    var r := FirstWithKey(StatusValues, StatusDisplayName, name);
    assert r.None? ==> forall s: JobStatus :: StatusDisplayName(s) != name by {
      if r.None? {
        forall s: JobStatus ensures StatusDisplayName(s) != name {
          assert StatusValues[StatusIndex(s)] == s;
        }
      }
    }
    r
  }

  /** Every status is found by its display name. */
  lemma StatusRoundTrip(s: JobStatus)
    ensures StatusFromDisplayName(StatusDisplayName(s)) == Some(s)
  {
    match s
    case Recruiting => FirstWithKeyFinds(StatusValues, StatusDisplayName, 0);
    case Closed => FirstWithKeyFinds(StatusValues, StatusDisplayName, 1);
  }

  datatype JobCategory = ShortFilm | FeatureFilm | WebDrama | Advertisement | MusicVideo | OtherCategory

  const CategoryValues: seq<JobCategory> := [ShortFilm, FeatureFilm, WebDrama, Advertisement, MusicVideo, OtherCategory]

  function CategoryDisplayName(c: JobCategory): string
  {
    match c
    case ShortFilm => "단편영화"
    case FeatureFilm => "장편영화"
    case WebDrama => "웹드라마"
    case Advertisement => "광고"
    case MusicVideo => "뮤직비디오"
    case OtherCategory => "기타"
  }

  /** `ordinal()`: the category's position in `values()`. */
  function CategoryIndex(c: JobCategory): (i: nat)
    ensures i < |CategoryValues| && CategoryValues[i] == c
  {
    match c
    case ShortFilm => 0
    case FeatureFilm => 1
    case WebDrama => 2
    case Advertisement => 3
    case MusicVideo => 4
    case OtherCategory => 5
  }

  /** `JobCategory.fromDisplayName`: None is the IllegalArgumentException an unknown name raises. */
  function CategoryFromDisplayName(name: string): (r: Option<JobCategory>)
    ensures r.Some? ==> CategoryDisplayName(r.value) == name
    ensures r.None? <==> forall c: JobCategory :: CategoryDisplayName(c) != name
  {
    var r := FirstWithKey(CategoryValues, CategoryDisplayName, name);
    assert r.None? ==> forall c: JobCategory :: CategoryDisplayName(c) != name by {
      if r.None? {
        forall c: JobCategory ensures CategoryDisplayName(c) != name {
          assert CategoryValues[CategoryIndex(c)] == c;
        }
      }
    }
    r
  }

  /** The display names are pairwise distinct. */
  lemma CategoryNamesDistinct(a: JobCategory, b: JobCategory)
    ensures CategoryDisplayName(a) == CategoryDisplayName(b) ==> a == b
  {
  }

  /** Every category is found by its display name. */
  lemma CategoryRoundTrip(c: JobCategory)
    ensures CategoryFromDisplayName(CategoryDisplayName(c)) == Some(c)
  {
    var i := CategoryIndex(c);
    forall j | 0 <= j < i
      ensures CategoryDisplayName(CategoryValues[j]) != CategoryDisplayName(CategoryValues[i])
    {
      CategoryNamesDistinct(CategoryValues[j], CategoryValues[i]);
    }
    FirstWithKeyFinds(CategoryValues, CategoryDisplayName, i);
  }

  /** Constant names are not display names: the English spelling of a category is rejected. */
  lemma EnglishNamesRejected()
    ensures CategoryFromDisplayName("SHORT_FILM").None?
    ensures CategoryFromDisplayName("OTHER").None?
    ensures StatusFromDisplayName("RECRUITING").None?
  {
  }

  // ---------------------------------------------------------------------
  // The posting
  // ---------------------------------------------------------------------

  /** The thirteen fields a posting's author sets, in the order `update` takes them. */
  datatype JobContent = JobContent(
    category: JobCategory, isPumasi: bool, price: Option<int>, title: string, description: Option<string>,
    gender: Option<string>, ageRange: Option<string>, production: string, workTitle: string,
    shootingDate: Option<string>, shootingLocation: Option<string>,
    contactEmail: Option<string>, contactPhone: Option<string>)

  /** A posting's state: who posted it, the content, the status and the view count. */
  datatype JobRow = JobRow(id: Uuid, userId: Uuid, content: JobContent, status: JobStatus, views: Int32)

  class Job {
    const id: Uuid
    /** The posting account's id. */
    const userId: Uuid
    var category: JobCategory
    var isPumasi: bool
    var price: Option<int>
    var title: string
    var description: Option<string>
    var gender: Option<string>
    var ageRange: Option<string>
    var production: string
    var workTitle: string
    var shootingDate: Option<string>
    var shootingLocation: Option<string>
    var status: JobStatus
    var views: Int32
    var contactEmail: Option<string>
    var contactPhone: Option<string>

    /** The builder without status and views: they default to RECRUITING and 0. */
    constructor (id: Uuid, userId: Uuid, content: JobContent)
      ensures Row() == JobRow(id, userId, content, Recruiting, 0)
    {
      this.id := id;
      this.userId := userId;
      status := Recruiting;
      views := 0;
      new;
      SetContent(content);
    }

    function Content(): JobContent
      reads this
    {
      JobContent(category, isPumasi, price, title, description, gender, ageRange, production, workTitle,
                 shootingDate, shootingLocation, contactEmail, contactPhone)
    }

    function Row(): JobRow
      reads this
    {
      JobRow(id, userId, Content(), status, views)
    }

    method SetContent(c: JobContent)
      modifies this
      ensures Content() == c
      ensures status == old(status) && views == old(views)
    {
      category, isPumasi, price, title, description := c.category, c.isPumasi, c.price, c.title, c.description;
      gender, ageRange, production, workTitle := c.gender, c.ageRange, c.production, c.workTitle;
      shootingDate, shootingLocation, contactEmail, contactPhone := c.shootingDate, c.shootingLocation, c.contactEmail, c.contactPhone;
    }

    /** `incrementViews`: `views++` on an Integer, so the count wraps past the int range. */
    method IncrementViews()
      modifies this
      ensures Row() == old(Row()).(views := IntIncrement(old(views)))
      ensures old(views) as int < IntMax ==> views as int == old(views) as int + 1
    {
      views := IntIncrement(views);
    }

    /** `update`: overwrite the thirteen content fields; id, owner, status and views stay. */
    method Update(content: JobContent)
      modifies this
      ensures Row() == old(Row()).(content := content)
    {
      SetContent(content);
    }

    /** `close`: the status becomes CLOSED and nothing else changes. */
    method Close()
      modifies this
      ensures Row() == old(Row()).(status := Closed)
    {
      status := Closed;
    }
  }

  /** n views of a posting below the wrap point add exactly n. */
  lemma ViewsAddUp(views: Int32, n: nat)
    requires views as int + n <= IntMax
    ensures IntIncrementTimes(views, n) as int == views as int + n
  {
    IntIncrementTimesAdds(views, n);
  }

  // ---------------------------------------------------------------------
  // The service
  // ---------------------------------------------------------------------

  /**
   * The status filter `getJobs` derives from its status parameter: none
   * for a missing value or "all" in any case; RECRUITING for exactly
   * "모집중"; CLOSED for anything else.
   */
  function StatusFilter(status: Option<string>): (r: Option<JobStatus>)
    ensures r.None? <==> status.None? || EqualsIgnoreCase("all", status.value)
    ensures r == Some(Recruiting) <==> status == Some(StatusDisplayName(Recruiting))
    ensures r.Some? && status != Some(StatusDisplayName(Recruiting)) ==> r == Some(Closed)
  {
    assert ToUpperCase("all")[0] == 'A' && ToUpperCase("모집중")[0] == '모';
    if status.None? || EqualsIgnoreCase("all", status.value) then None
    else if status.value == "모집중" then Some(Recruiting)
    else Some(Closed)
  }

  /** The filter agrees with the display names: each status's own name selects it. */
  lemma StatusFilterMatchesDisplayNames(s: JobStatus)
    ensures StatusFilter(Some(StatusDisplayName(s))) == Some(s)
  {
    if s == Closed {
      assert "마감됨" != "모집중";
      assert ToUpperCase("all") != ToUpperCase("마감됨") by {
        assert |ToUpperCase("all")| == 3 && |ToUpperCase("마감됨")| == 3;
        assert ToUpperCase("all")[0] == 'A';
      }
    } else {
      assert ToUpperCase("all")[0] == 'A';
    }
  }

  class JobService {
    /** The posting store, by id. */
    var jobs: map<Uuid, Job>

    predicate Valid()
      reads this
    {
      forall id :: id in jobs ==> jobs[id].id == id
    }

    constructor ()
      ensures Valid() && jobs == map[]
    {
      jobs := map[];
    }

    /**
     * The lookup `updateJob` and `deleteJob` start with: the caller's own
     * posting, else JOB_NOT_FOUND when no posting has that id, else FORBIDDEN.
     */
    function OwnJob(user: User, jobId: Uuid): (r: Result<Job, ErrorCode>)
      reads this
      ensures r.Success? <==> jobId in jobs && jobs[jobId].userId == user.id
      ensures r.Success? ==> r.value == jobs[jobId]
      ensures r.Failure? ==> r.error == (if jobId in jobs then Forbidden else JobNotFound)
    {
      if jobId in jobs && jobs[jobId].userId == user.id then Success(jobs[jobId])
      else if jobId !in jobs then Failure(JobNotFound)
      else Failure(Forbidden)
    }

    /** `getJob`: a missing posting is JOB_NOT_FOUND; otherwise its view count goes up by one first. */
    method GetJob(jobId: Uuid) returns (r: Result<JobRow, ErrorCode>)
      requires Valid()
      modifies if jobId in jobs then {jobs[jobId]} else {}
      ensures jobs == old(jobs)
      ensures jobId !in jobs ==> r == Failure(JobNotFound)
      ensures jobId in jobs ==>
        jobs[jobId].Row() == old(jobs[jobId].Row()).(views := IntIncrement(old(jobs[jobId].views))) &&
        r == Success(jobs[jobId].Row())
    {
      if jobId !in jobs {
        return Failure(JobNotFound);
      }
      var job := jobs[jobId];
      job.IncrementViews();
      r := Success(job.Row());
    }

    /**
     * `createJob`: a new posting by the caller, with the request's content
     * (a missing isPumasi becomes false), status RECRUITING and no views.
     * `newId` is the id the database assigns.
     */
    method CreateJob(user: User, newId: Uuid, content: JobContent, isPumasi: Option<bool>) returns (r: JobRow)
      requires Valid() && newId !in jobs
      modifies this
      ensures Valid()
      ensures newId in jobs && fresh(jobs[newId]) && jobs == old(jobs)[newId := jobs[newId]]
      ensures r == jobs[newId].Row()
      ensures r == JobRow(newId, user.id, content.(isPumasi := isPumasi.Some? && isPumasi.value), Recruiting, 0)
    {
      var job := new Job(newId, user.id, content.(isPumasi := if isPumasi.Some? then isPumasi.value else false));
      jobs := jobs[newId := job];
      r := job.Row();
    }

    /** `updateJob`: only the poster's own posting is rewritten. */
    method UpdateJob(user: User, jobId: Uuid, content: JobContent) returns (r: Result<JobRow, ErrorCode>)
      requires Valid()
      modifies if jobId in jobs then {jobs[jobId]} else {}
      ensures jobs == old(jobs)
      ensures r.Failure? ==> old(OwnJob(user, jobId)).Failure? && r.error == old(OwnJob(user, jobId)).error
      ensures old(OwnJob(user, jobId)).Success? ==>
        jobs[jobId].Row() == old(jobs[jobId].Row()).(content := content) && r == Success(jobs[jobId].Row())
      ensures old(OwnJob(user, jobId)).Failure? ==> r.Failure? && (jobId in jobs ==> jobs[jobId].Row() == old(jobs[jobId].Row()))
    {
      var own := OwnJob(user, jobId);
      if own.Failure? {
        return Failure(own.error);
      }
      var job := own.value;
      job.Update(content);
      r := Success(job.Row());
    }

    /** `deleteJob`: only the poster's own posting is removed. */
    method DeleteJob(user: User, jobId: Uuid) returns (r: Result<(), ErrorCode>)
      requires Valid()
      modifies this
      ensures Valid()
      ensures r.Success? <==> old(OwnJob(user, jobId)).Success?
      ensures r.Failure? ==> r.error == old(OwnJob(user, jobId)).error && jobs == old(jobs)
      ensures r.Success? ==> jobs == old(jobs) - {jobId}
    {
      var own := OwnJob(user, jobId);
      if own.Failure? {
        return Failure(own.error);
      }
      jobs := jobs - {jobId};
      r := Success(());
    }
  }
}
