/**
 * The state the PHP back end and the GPU server share for one project: the project
 * folder (project table, images, sub-directories), each save's log, the error logs,
 * and the GPU server's temp folder.
 */
module Site {
  import opened Wrappers
  import opened Ledger
  import opened SaveFiles
  import Utils

  /**
   * project_lookup_table.json. Older projects may still carry "project_name" and lack
   * the two mappings; the project view migrates them (Project.Migrate).
   */
  datatype ProjectTable = ProjectTable(
    projectId: string,
    projectName: Option<string>,
    userGivenProjectName: Option<string>,
    imageMapping: Option<map<string, string>>,
    registry: Option<Registry>)

  // Facts about writing the folder maps and appending to the logs, stated once for
  // the methods that chain several writes.

  /** A second write to the same key is all that remains of the first. */
  lemma UpdatedTwice<K, V>(m: map<K, V>, key: K, a: V, b: V)
    ensures m[key := a][key := b] == m[key := b]
  {
  }

  /** Writing back what a key holds changes nothing. */
  lemma UpdatedSame<K, V>(m: map<K, V>, key: K)
    requires key in m
    ensures m[key := m[key]] == m && m[key := m[key]].Keys == m.Keys
  {
  }

  lemma Appended<T>(a: seq<T>, b: seq<T>, c: seq<T>)
    ensures a + b + c == a + (b + c)
  {
  }

  class Site {
    /** "$USER_PROJECTS_ENTRY_POINT/<project_id>" */
    const projectDir: string
    var project: ProjectTable
    /**
     * The plain files directly in the project folder besides project_lookup_table.json:
     * the images, and whatever else the page copied in from the upload entry point.
     */
    var images: set<string>
    /** The sub-directories of the project folder: the saves and "thumbnails". */
    var saves: map<string, Dir>
    /** Each save's log.txt. */
    var logs: map<string, seq<LogLine>>
    /** Everything appended to an error.txt, in order. */
    var errors: seq<ErrorRecord>
    /** The GPU server's temp folder. */
    var remote: Dir

    constructor (projectDir: string, project: ProjectTable, images: set<string>, saves: map<string, Dir>, remote: Dir)
      ensures this.projectDir == projectDir && this.project == project && this.images == images
      ensures this.saves == saves && this.remote == remote && this.logs == map[] && this.errors == []
    {
      this.projectDir := projectDir;
      this.project := project;
      this.images := images;
      this.saves := saves;
      this.remote := remote;
      this.logs := map[];
      this.errors := [];
    }

    /** The project table has the shape the project view's migration gives it. */
    predicate Migrated()
      reads this
    {
      project.imageMapping.Some? && project.registry.Some?
    }

    function SaveDir(save: string): string
    {
      projectDir + "/" + save
    }

    function LogOf(save: string): seq<LogLine>
      reads this
    {
      if save in logs then logs[save] else []
    }

    /** file_put_contents(log.txt, …, FILE_APPEND): the log is created when missing. */
    method AppendLog(save: string, lines: seq<LogLine>)
      modifies this
      ensures logs == old(logs)[save := old(LogOf(save)) + lines]
      ensures project == old(project) && images == old(images) && saves == old(saves)
      ensures errors == old(errors) && remote == old(remote)
    {
      logs := logs[save := LogOf(save) + lines];
    }

    /** log_error_on_server for a save directory, which may or may not exist. */
    method LogError(save: string, incident: Incident, session: Option<string>)
      modifies this
      ensures errors == old(errors) + [ErrorRecord(Utils.ErrorLogPath(SaveDir(save), save in saves), incident, session)]
      ensures project == old(project) && images == old(images) && saves == old(saves)
      ensures logs == old(logs) && remote == old(remote)
    {
      errors := errors + [ErrorRecord(Utils.ErrorLogPath(SaveDir(save), save in saves), incident, session)];
    }
  }
}
