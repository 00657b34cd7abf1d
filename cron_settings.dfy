/** The CRM settings module (crm/settings.py): it makes sure two apps are installed
    and registers the CRM cron jobs, merging them into an existing `CRONJOBS` list
    without adding a job whose callable is already listed. */
module CronSettings {
  import opened Wrappers

  /** A django-crontab entry: a crontab schedule and the dotted name of the callable
      (the entries' optional args, kwargs and suffix are not represented). */
  datatype CronJob = CronJob(schedule: string, callable: string)

  const RequiredApps: seq<string> := ["django_crontab", "django_celery_beat"]

  const CrmCronJobs: seq<CronJob> := [
    CronJob("0 */12 * * *", "crm.cron.update_low_stock"),
    CronJob("*/5 * * * *", "crm.cron.log_crm_heartbeat"),
    CronJob("0 2 * * 0", "crm.cron.clean_inactive_customers"),
    CronJob("0 8 * * *", "crm.cron.send_order_reminders")
  ]

  // ---------------------------------------------------------------------------
  // INSTALLED_APPS

  /** `if app not in apps: apps += [app]`. */
  function AddIfAbsent(apps: seq<string>, app: string): (r: seq<string>)
    ensures app in r
    ensures apps <= r && |r| <= |apps| + 1
    ensures forall x :: x in r ==> x in apps || x == app
    ensures |r| == |apps| <==> app in apps
  {
    if app in apps then apps else apps + [app]
  }

  /** Both blocks of the module, one after the other. */
  function EnsureApps(apps: seq<string>): seq<string> {
    AddIfAbsent(AddIfAbsent(apps, RequiredApps[0]), RequiredApps[1])
  }

  /** Afterwards both apps are installed, the apps that were there come first and
      nothing else is added. */
  lemma EnsureAppsShape(apps: seq<string>)
    ensures forall a :: a in RequiredApps ==> a in EnsureApps(apps)
    ensures apps <= EnsureApps(apps)
    ensures forall x :: x in EnsureApps(apps) ==> x in apps || x in RequiredApps
  {
    var once := AddIfAbsent(apps, RequiredApps[0]);
    assert apps <= once && once <= EnsureApps(apps);
  }

  /** Running the blocks a second time leaves the list as it is. */
  lemma EnsureAppsIdempotent(apps: seq<string>)
    ensures EnsureApps(EnsureApps(apps)) == EnsureApps(apps)
  {
    EnsureAppsShape(apps);
  }

  // ---------------------------------------------------------------------------
  // CRONJOBS

  /** `[job[1] for job in jobs]`. */
  function Names(jobs: seq<CronJob>): (names: seq<string>)
    ensures |names| == |jobs|
    ensures forall i :: 0 <= i < |jobs| ==> names[i] == jobs[i].callable
  {
    seq(|jobs|, i requires 0 <= i < |jobs| => jobs[i].callable)
  }

  lemma NamesAppend(a: seq<CronJob>, b: seq<CronJob>)
    ensures Names(a + b) == Names(a) + Names(b)
  {
  }

  lemma NamedJob(jobs: seq<CronJob>, job: CronJob)
    requires job in jobs
    ensures job.callable in Names(jobs)
  {
    var i :| 0 <= i < |jobs| && jobs[i] == job;
    assert Names(jobs)[i] == job.callable;
  }

  /** The jobs of `jobs` whose callable is not in `names`, in their order. */
  function Missing(names: seq<string>, jobs: seq<CronJob>): (r: seq<CronJob>)
    ensures |r| <= |jobs|
  {
    if jobs == [] then []
    else
      var last := jobs[|jobs| - 1];
      Missing(names, jobs[..|jobs| - 1]) + (if last.callable in names then [] else [last])
  }

  /** A job is missing exactly when it is one of `jobs` and its callable is not named. */
  lemma {:induction false} MissingMembers(names: seq<string>, jobs: seq<CronJob>, job: CronJob)
    ensures job in Missing(names, jobs) <==> job in jobs && job.callable !in names
  {
    if jobs != [] {
      var init := jobs[..|jobs| - 1];
      MissingMembers(names, init, job);
      assert jobs == init + [jobs[|jobs| - 1]];
    }
  }

  /** Filtering a concatenation filters each part, so the order of `jobs` is kept. */
  lemma {:induction false} MissingAppend(names: seq<string>, a: seq<CronJob>, b: seq<CronJob>)
    ensures Missing(names, a + b) == Missing(names, a) + Missing(names, b)
  {
    if b != [] {
      MissingAppend(names, a, b[..|b| - 1]);
      assert (a + b)[..|a + b| - 1] == a + b[..|b| - 1];
      assert (a + b)[|a + b| - 1] == b[|b| - 1];
    } else {
      assert a + b == a;
    }
  }

  /** The list the merge ends with, given the jobs that were there. */
  function MergeJobs(existing: seq<CronJob>, crm: seq<CronJob>): (r: seq<CronJob>)
    ensures existing <= r
    ensures |r| <= |existing| + |crm|
  {
    existing + Missing(Names(existing), crm)
  }

  /** A CRM job is appended exactly when its callable was not among the existing names. */
  lemma MergeAppendsIffAbsent(existing: seq<CronJob>, crm: seq<CronJob>, job: CronJob)
    requires job in crm
    ensures job in MergeJobs(existing, crm)[|existing|..] <==> job.callable !in Names(existing)
  {
    assert MergeJobs(existing, crm)[|existing|..] == Missing(Names(existing), crm);
    MissingMembers(Names(existing), crm, job);
  }

  /** After the merge every CRM callable is registered. */
  lemma MergeRegistersAll(existing: seq<CronJob>, crm: seq<CronJob>, job: CronJob)
    requires job in crm
    ensures job.callable in Names(MergeJobs(existing, crm))
  {
    var m := MergeJobs(existing, crm);
    NamesAppend(existing, Missing(Names(existing), crm));
    if job.callable !in Names(existing) {
      MissingMembers(Names(existing), crm, job);
      NamedJob(Missing(Names(existing), crm), job);
    }
  }

  /** Nothing is missing when every callable is already named. */
  lemma {:induction false} NothingMissing(names: seq<string>, jobs: seq<CronJob>)
    requires forall j :: j in jobs ==> j.callable in names
    ensures Missing(names, jobs) == []
  {
    if jobs != [] {
      var init := jobs[..|jobs| - 1];
      assert forall j :: j in init ==> j in jobs;
      assert jobs[|jobs| - 1] in jobs;
      NothingMissing(names, init);
    }
  }

  /** Merging a second time adds nothing. */
  lemma MergeIdempotent(existing: seq<CronJob>, crm: seq<CronJob>)
    ensures MergeJobs(MergeJobs(existing, crm), crm) == MergeJobs(existing, crm)
  {
    var m := MergeJobs(existing, crm);
    forall j | j in crm
      ensures j.callable in Names(m)
    {
      MergeRegistersAll(existing, crm, j);
    }
    NothingMissing(Names(m), crm);
    assert m + [] == m;
  }

  /** Loading the settings twice: the first load sets `CRONJOBS` to the CRM list and the
      second merges it into itself, which changes nothing. */
  lemma MergeIntoItself()
    ensures MergeJobs(CrmCronJobs, CrmCronJobs) == CrmCronJobs
  {
    forall j | j in CrmCronJobs
      ensures j.callable in Names(CrmCronJobs)
    {
      NamedJob(CrmCronJobs, j);
    }
    NothingMissing(Names(CrmCronJobs), CrmCronJobs);
    assert CrmCronJobs + [] == CrmCronJobs;
  }

  // ---------------------------------------------------------------------------
  // The settings object

  class Settings {
    var installedApps: seq<string>
    /** `None` when the settings have no `CRONJOBS` attribute. */
    var cronJobs: Option<seq<CronJob>>

    constructor (apps: seq<string>, jobs: Option<seq<CronJob>>)
      ensures installedApps == apps && cronJobs == jobs
    {
      installedApps, cronJobs := apps, jobs;
    }

    /** crm/settings.py:11-17. */
    method EnsureInstalledApps()
      modifies this
      ensures installedApps == EnsureApps(old(installedApps))
      ensures cronJobs == old(cronJobs)
    {
      if RequiredApps[0] !in installedApps {
        installedApps := installedApps + [RequiredApps[0]];
      }
      if RequiredApps[1] !in installedApps {
        installedApps := installedApps + [RequiredApps[1]];
      }
    }

    /** crm/settings.py:34-42: the names are taken once, before the loop. */
    method RegisterCrmCronJobs()
      modifies this
      ensures installedApps == old(installedApps)
      ensures old(cronJobs).None? ==> cronJobs == Some(CrmCronJobs)
      ensures old(cronJobs).Some? ==> cronJobs == Some(MergeJobs(old(cronJobs).value, CrmCronJobs))
    {
      if cronJobs.Some? {
        ghost var existing := cronJobs.value;
        var existingNames := Names(cronJobs.value);
        var jobs := cronJobs.value;
        for i := 0 to |CrmCronJobs|
          invariant jobs == existing + Missing(existingNames, CrmCronJobs[..i])
          invariant installedApps == old(installedApps)
        {
          var job := CrmCronJobs[i];
          assert CrmCronJobs[..i + 1] == CrmCronJobs[..i] + [job];
          MissingAppend(existingNames, CrmCronJobs[..i], [job]);
          assert Missing(existingNames, [job]) == (if job.callable in existingNames then [] else [job]) by {
            assert [job][..0] == [];
          }
          if job.callable !in existingNames {
            jobs := jobs + [job];
          }
        }
        assert CrmCronJobs[..|CrmCronJobs|] == CrmCronJobs;
        cronJobs := Some(jobs);
      } else {
        cronJobs := Some(CrmCronJobs);
      }
    }
  }
}
