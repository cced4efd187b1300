/** Webhook configurations: checks, storage and the generated partial update. Texts are sequences of bytes. */
module Webhook {
  import opened Basics
  import opened UpdateBuilder

  type Id = nat

  datatype Invalid = BranchEmpty | BranchTooLong | BranchCharacters | BranchPattern
                   | DirEmpty | DirTooLong | DirCharacters | DirRelative
                   | CommandTooLong | SecretLength | NothingProvided

  type Check = Option<Invalid>

  // --- Validation ---------------------------------------------------------------------------

  predicate BranchByte(c: char) {
    'a' <= c <= 'z' || 'A' <= c <= 'Z' || '0' <= c <= '9' || c == '.' || c == '_' || c == '/' || c == '-'
  }

  function ValidateBranch(branch: string): Check {
    if branch == "" then Some(BranchEmpty)
    else if |branch| > 255 then Some(BranchTooLong)
    else if exists c :: c in branch && (c == '\0' || c == '\'' || c < ' ') then Some(BranchCharacters)
    else if !forall c :: c in branch ==> BranchByte(c) then Some(BranchPattern)
    else None
  }

  function ValidateWorkingDir(dir: string): Check {
    if dir == "" then Some(DirEmpty)
    else if |dir| > 4096 then Some(DirTooLong)
    else if '\0' in dir || '\'' in dir then Some(DirCharacters)
    else if dir[0] != '/' then Some(DirRelative)
    else None
  }

  function ValidateSecret(secret: string): Check { if |secret| < 16 || |secret| > 512 then Some(SecretLength) else None }

  function ValidateCommand(cmd: string): Check { if |cmd| > 4096 then Some(CommandTooLong) else None }

  function OrElse(first: Check, second: Check): Check { if first.Some? then first else second }

  function IfGiven(field: Option<string>, check: string -> Check): Check { if field.Some? then check(field.value) else None }

  datatype CreateRequest = CreateRequest(provider: string, secret: string, branch: string, dir: string, cmd: string)

  datatype UpdateRequest = UpdateRequest(provider: Option<string>, secret: Option<string>, branch: Option<string>,
                                         dir: Option<string>, cmd: Option<string>)

  function ValidateCreate(req: CreateRequest): Check {
    OrElse(ValidateBranch(req.branch),
      OrElse(ValidateWorkingDir(req.dir), OrElse(ValidateCommand(req.cmd), ValidateSecret(req.secret))))
  }

  function ValidateUpdate(req: UpdateRequest): Check {
    if req.provider.None? && req.secret.None? && req.branch.None? && req.dir.None? && req.cmd.None? then Some(NothingProvided)
    else OrElse(IfGiven(req.branch, ValidateBranch),
      OrElse(IfGiven(req.dir, ValidateWorkingDir), OrElse(IfGiven(req.secret, ValidateSecret), IfGiven(req.cmd, ValidateCommand))))
  }

  /** A branch passes exactly when it is 1 to 255 bytes of the allowed set; the control-character test adds nothing. */
  lemma BranchMeaning(branch: string)
    ensures ValidateBranch(branch) == None <==>
            && 1 <= |branch| <= 255
            && forall c :: c in branch ==>
                 'a' <= c <= 'z' || 'A' <= c <= 'Z' || '0' <= c <= '9' || c == '.' || c == '_' || c == '/' || c == '-'
  {
  }

  /** A directory passes exactly when it is an absolute path of at most 4096 bytes without quote and null byte. */
  lemma DirMeaning(dir: string)
    ensures ValidateWorkingDir(dir) == None <==> 1 <= |dir| <= 4096 && dir[0] == '/' && '\'' !in dir && '\0' !in dir
  {
  }

  // --- Stored rows ----------------------------------------------------------------------------

  datatype Column = ContainerId | Provider | WebhookSecret | Branch | WorkingDir | PostPullCmd | CreatedAt | UpdatedAt

  datatype Value = Key(id: Id) | Text(text: string) | Time(at: nat)

  type Row = map<Column, Value>

  datatype Config = Config(container: Id, provider: string, secret: string, branch: string, dir: string, cmd: string,
                           created: nat, updated: nat)

  predicate ConfigOk(c: Config) {
    ValidateBranch(c.branch) == None && ValidateWorkingDir(c.dir) == None
    && ValidateCommand(c.cmd) == None && ValidateSecret(c.secret) == None
  }

  function ToRow(c: Config): Row {
    map[ContainerId := Key(c.container), Provider := Text(c.provider), WebhookSecret := Text(c.secret), Branch := Text(c.branch),
        WorkingDir := Text(c.dir), PostPullCmd := Text(c.cmd), CreatedAt := Time(c.created), UpdatedAt := Time(c.updated)]
  }

  predicate IsConfigRow(row: Row) {
    && ContainerId in row && row[ContainerId].Key? && Provider in row && row[Provider].Text?
    && WebhookSecret in row && row[WebhookSecret].Text? && Branch in row && row[Branch].Text?
    && WorkingDir in row && row[WorkingDir].Text? && PostPullCmd in row && row[PostPullCmd].Text?
    && CreatedAt in row && row[CreatedAt].Time? && UpdatedAt in row && row[UpdatedAt].Time?
  }

  /** The configuration as the repository reads it back. */
  function FromRow(row: Row): Config
    requires IsConfigRow(row)
  {
    Config(row[ContainerId].id, row[Provider].text, row[WebhookSecret].text, row[Branch].text, row[WorkingDir].text,
           row[PostPullCmd].text, row[CreatedAt].at, row[UpdatedAt].at)
  }

  /** What was stored is read back. */
  lemma RowRoundTrip(c: Config)
    ensures IsConfigRow(ToRow(c)) && FromRow(ToRow(c)) == c
  {
  }

  /** Every column is set at most once, and never the container, the key or the creation time. */
  lemma UpdateColumns(req: UpdateRequest, now: nat)
    ensures DistinctColumns(UpdateFields(req, now))
    ensures forall i :: 0 <= i < |UpdateFields(req, now)| ==> UpdateFields(req, now)[i].0 !in {ContainerId, CreatedAt}
  {
  }

  function TextOf(field: Option<string>): Option<Value> { if field.Some? then Some(Text(field.value)) else None }

  /** The fields of the statement, in the order the code lists them; the update time is always there. */
  function UpdateFields(req: UpdateRequest, now: nat): Fields<Column, Value> {
    [(Provider, TextOf(req.provider)), (WebhookSecret, TextOf(req.secret)), (Branch, TextOf(req.branch)),
     (WorkingDir, TextOf(req.dir)), (PostPullCmd, TextOf(req.cmd)), (UpdatedAt, Some(Time(now)))]
  }

  function OrOld(field: Option<string>, before: string): string { if field.Some? then field.value else before }

  /** The record update the request asks for. */
  function Updated(c: Config, req: UpdateRequest, now: nat): Config {
    Config(c.container, OrOld(req.provider, c.provider), OrOld(req.secret, c.secret), OrOld(req.branch, c.branch),
           OrOld(req.dir, c.dir), OrOld(req.cmd, c.cmd), c.created, now)
  }

  lemma OverwriteFirst(row: Row, column: Column, value: Option<Value>, rest: Fields<Column, Value>)
    ensures Overwrite(row, [(column, value)] + rest) == Overwrite(if value.Some? then row[column := value.value] else row, rest)
  {
    assert ([(column, value)] + rest)[1..] == rest;
  }

  /** Writing one column of a stored configuration is changing that field. */
  lemma ColumnIsField(c: Config, text: string, at: nat)
    ensures ToRow(c)[Provider := Text(text)] == ToRow(c.(provider := text))
    ensures ToRow(c)[WebhookSecret := Text(text)] == ToRow(c.(secret := text))
    ensures ToRow(c)[Branch := Text(text)] == ToRow(c.(branch := text))
    ensures ToRow(c)[WorkingDir := Text(text)] == ToRow(c.(dir := text))
    ensures ToRow(c)[PostPullCmd := Text(text)] == ToRow(c.(cmd := text))
    ensures ToRow(c)[UpdatedAt := Time(at)] == ToRow(c.(updated := at))
  {
  }

  lemma OverwriteIsUpdated(c: Config, req: UpdateRequest, now: nat)
    ensures Overwrite(ToRow(c), UpdateFields(req, now)) == ToRow(Updated(c, req, now))
  {
    hide Overwrite, ToRow;
    var f6: Fields<Column, Value> := [(UpdatedAt, Some(Time(now)))];
    var f5 := [(PostPullCmd, TextOf(req.cmd))] + f6;
    var f4 := [(WorkingDir, TextOf(req.dir))] + f5;
    var f3 := [(Branch, TextOf(req.branch))] + f4;
    var f2 := [(WebhookSecret, TextOf(req.secret))] + f3;
    assert UpdateFields(req, now) == [(Provider, TextOf(req.provider))] + f2;
    var c1 := c.(provider := OrOld(req.provider, c.provider));
    var c2 := c1.(secret := OrOld(req.secret, c.secret));
    var c3 := c2.(branch := OrOld(req.branch, c.branch));
    var c4 := c3.(dir := OrOld(req.dir, c.dir));
    var c5 := c4.(cmd := OrOld(req.cmd, c.cmd));
    OverwriteFirst(ToRow(c), Provider, TextOf(req.provider), f2);
    ColumnIsField(c, c1.provider, now);
    OverwriteFirst(ToRow(c1), WebhookSecret, TextOf(req.secret), f3);
    ColumnIsField(c1, c2.secret, now);
    OverwriteFirst(ToRow(c2), Branch, TextOf(req.branch), f4);
    ColumnIsField(c2, c3.branch, now);
    OverwriteFirst(ToRow(c3), WorkingDir, TextOf(req.dir), f5);
    ColumnIsField(c3, c4.dir, now);
    OverwriteFirst(ToRow(c4), PostPullCmd, TextOf(req.cmd), f6);
    ColumnIsField(c4, c5.cmd, now);
    LastField(c5, now);
    ColumnIsField(c5, c5.cmd, now);
  }

  lemma LastField(c: Config, now: nat)
    ensures Overwrite(ToRow(c), [(UpdatedAt, Some(Time(now)))]) == ToRow(c)[UpdatedAt := Time(now)]
  {
    hide ToRow;
    var none: Fields<Column, Value> := [];
    assert [(UpdatedAt, Some(Time(now)))] == [(UpdatedAt, Some(Time(now)))] + none;
    OverwriteFirst(ToRow(c), UpdatedAt, Some(Time(now)), none);
  }

  /** A valid partial update of a valid configuration leaves it valid. */
  lemma UpdateKeepsOk(c: Config, req: UpdateRequest, now: nat)
    requires ConfigOk(c) && ValidateUpdate(req) == None
    ensures ConfigOk(Updated(c, req, now))
  {
    hide ValidateBranch, ValidateWorkingDir, ValidateSecret, ValidateCommand;
  }
}
