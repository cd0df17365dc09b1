/** How the notebook spawner merges the administrator's defaults with a submitted form. */
module SpawnerForm {
  import opened Wrappers

  datatype Field = Type | Name | Size | MountPath | AccessModes

  /** The keys of a form: an option, a field of the workspace volume, a numbered field of a data volume, a key that
      merely starts like the type of a data volume, or a key that means nothing here. */
  datatype Key =
    | Image | Cpu | Memory | ExtraResources
    | Workspace(field: Field) | Volume(field: Field, number: int)
    | TypeLike(suffix: string) | Other(name: string)

  /** A submitted form, by the first value of each key. */
  type Form = map<Key, string>

  /** An entry of the configuration.  It may lack a value; without the flag it is writable. */
  datatype Setting<T> = Setting(value: Option<T>, readOnly: bool)

  type FieldSettings = map<Field, Setting<string>>

  datatype Defaults = Defaults(
    image: Option<Setting<string>>, images: Option<seq<string>>,
    cpu: Option<Setting<string>>, memory: Option<Setting<string>>,
    workspaceVolume: Option<Setting<FieldSettings>>,
    dataVolumes: Option<Setting<seq<Option<FieldSettings>>>>,
    extraResources: Option<Setting<string>>)

  /** The configuration file: absent, without defaults, with null defaults, or with defaults. */
  datatype Config = NoConfig | WithoutDefaults | NullDefaults | Config(defaults: Defaults)

  type VolumeOptions = map<Field, string>

  datatype Options = Options(image: Option<string>, cpu: Option<string>, memory: Option<string>,
                             workspaceVolume: VolumeOptions, dataVolumes: seq<VolumeOptions>,
                             extraResources: Option<string>)

  datatype Error = KeyError | UnboundLocalError

  // ---------- pieces

  const NOTHING := Defaults(None, None, None, None, None, None, None)

  function FormDefaults(c: Config): Defaults {
    if c.Config? then c.defaults else NOTHING
  }

  predicate IsSpace(c: char) {
    c == ' ' || '\t' <= c <= '\r' || '\U{1C}' <= c <= '\U{1F}'
  }

  function Strip(s: string): string {
    if s == "" then s
    else if IsSpace(s[0]) then Strip(s[1..])
    else if IsSpace(s[|s| - 1]) then Strip(s[..|s| - 1])
    else s
  }

  /** What the form gives for a key: nothing when the text is empty, and possibly only blanks stripped away. */
  function Given(form: Form, key: Key): Option<string> {
    if key in form && form[key] != "" then Some(Strip(form[key])) else None
  }

  predicate Contains<T>(setting: Option<Setting<T>>) {
    setting.Some? && setting.value.value.Some?
  }

  function Default<T>(setting: Option<Setting<T>>): Option<T> {
    if setting.Some? then setting.value.value else None
  }

  predicate Locked<T>(setting: Option<Setting<T>>) {
    Contains(setting) && setting.value.readOnly
  }

  function Rendered(f: Field, text: string): string {
    if f == Size then text + "Gi" else text
  }

  function Entry(fields: FieldSettings, f: Field): Option<Setting<string>> {
    if f in fields then Some(fields[f]) else None
  }

  // ---------- the rules

  /** A locked setting keeps its default; otherwise the form wins where it gives something. */
  ghost function Chosen(setting: Option<Setting<string>>, given: Option<string>): Option<string> {
    if given.Some? && !Locked(setting) then given else Default(setting)
  }

  ghost function ChosenImage(d: Defaults, given: Option<string>): Option<string> {
    if Locked(d.image) && given.Some? && d.images.Some? && given.value in d.images.value then given
    else Chosen(d.image, given)
  }

  ghost function WorkspaceField(volume: Setting<FieldSettings>, form: Form, f: Field): Option<string>
    requires volume.value.Some?
  {
    var setting := Entry(volume.value.value, f);
    if volume.readOnly then Default(setting) else Chosen(setting, Given(form, Workspace(f)))
  }

  ghost function RenderedFields(text: Field -> Option<string>): VolumeOptions {
    map f: Field | text(f).Some? :: Rendered(f, text(f).value)
  }

  ghost predicate Complete(volume: Option<FieldSettings>) {
    volume.Some? && forall f: Field :: f in volume.value && volume.value[f].value.Some?
  }

  predicate LooksLikeType(k: Key) {
    k.TypeLike? || (k.Volume? && k.field == Type)
  }

  ghost function VolumesClaimed(form: Form): nat {
    |set k | k in form && LooksLikeType(k)|
  }

  ghost function DefaultVolume(fields: FieldSettings): VolumeOptions {
    RenderedFields(f => Default(Entry(fields, f)))
  }

  ghost function DefaultVolumes(d: Defaults): seq<VolumeOptions>
    requires Contains(d.dataVolumes)
  {
    var volumes := d.dataVolumes.value.value.value;
    seq(|volumes|, i requires 0 <= i < |volumes| => DefaultVolume(volumes[i].GetOr(map[])))
  }

  ghost function FormVolume(form: Form, number: int): VolumeOptions {
    RenderedFields(f => Given(form, Volume(f, number)))
  }

  ghost function DataVolumes(d: Defaults, form: Form): seq<VolumeOptions> {
    if Locked(d.dataVolumes) then DefaultVolumes(d)
    else
      seq(VolumesClaimed(form), i requires 0 <= i => FormVolume(form, i + 1))
  }

  ghost predicate ImageFails(d: Defaults, form: Form) {
    Locked(d.image) && d.images.None? && Given(form, Image).Some?
  }

  ghost predicate VolumesFail(d: Defaults) {
    Locked(d.dataVolumes) && exists i ::
        0 <= i < |d.dataVolumes.value.value.value| && !Complete(d.dataVolumes.value.value.value[i])
  }

  ghost function Merged(c: Config, form: Form): Result<Options, Error> {
    var d := FormDefaults(c);
    if c.WithoutDefaults? || ImageFails(d, form) then Err(KeyError)
    else if !Contains(d.workspaceVolume) then Err(UnboundLocalError)
    else if VolumesFail(d) then Err(KeyError)
    else Ok(Options(ChosenImage(d, Given(form, Image)), Chosen(d.cpu, Given(form, Cpu)),
                    Chosen(d.memory, Given(form, Memory)),
                    RenderedFields(f => WorkspaceField(d.workspaceVolume.value, form, f)), DataVolumes(d, form),
                    Chosen(d.extraResources, Given(form, ExtraResources))))
  }

  // ---------- the merge

  method MergePlain(setting: Option<Setting<string>>, form: Form, key: Key) returns (chosen: Option<string>)
    ensures chosen == Chosen(setting, Given(form, key))
  {
    var readOnly := false;
    chosen := None;
    if Contains(setting) {
      chosen := setting.value.value;
      readOnly := setting.value.readOnly;
    }
    if !readOnly && key in form && form[key] != "" {
      chosen := Some(Strip(form[key]));
    }
  }

  method MergeImage(d: Defaults, form: Form) returns (r: Result<Option<string>, Error>)
    ensures r == if ImageFails(d, form) then Err(KeyError) else Ok(ChosenImage(d, Given(form, Image)))
  {
    var readOnly, chosen := false, None;
    if Contains(d.image) {
      chosen := d.image.value.value;
      readOnly := d.image.value.readOnly;
    }
    if Image in form && form[Image] != "" {
      var fromForm := Strip(form[Image]);
      if readOnly {
        if d.images.None? {
          return Err(KeyError);
        }
        if fromForm in d.images.value {
          chosen := Some(fromForm);
        }
      } else {
        chosen := Some(fromForm);
      }
    }
    r := Ok(chosen);
  }

  function At(volume: VolumeOptions, f: Field): Option<string> {
    if f in volume then Some(volume[f]) else None
  }

  ghost function Shown(f: Field, text: Option<string>): Option<string> {
    match text case Some(s) => Some(Rendered(f, s)) case None => None
  }

  lemma FieldByField(volume: VolumeOptions, text: Field -> Option<string>)
    requires forall f :: At(volume, f) == Shown(f, text(f))
    ensures volume == RenderedFields(text)
  {
    forall f ensures f in volume <==> text(f).Some? {
      assert At(volume, f) == Shown(f, text(f));
    }
    forall f | f in volume ensures volume[f] == RenderedFields(text)[f] {
      assert At(volume, f) == Shown(f, text(f));
    }
  }

  /** The default of one workspace field goes into the volume, and its flag into the read-only fields. */
  method TakeDefault(fields: FieldSettings, f: Field, volume: VolumeOptions, readOnly: set<Field>)
      returns (filled: VolumeOptions, locked: set<Field>)
    ensures forall g | g != f :: g in locked <==> g in readOnly
    ensures f in locked <==> f in readOnly || Locked(Entry(fields, f))
    ensures forall g | g != f :: At(filled, g) == At(volume, g)
    ensures At(filled, f) == if Contains(Entry(fields, f)) then Shown(f, Default(Entry(fields, f))) else At(volume, f)
  {
    filled, locked := volume, readOnly;
    if f in fields && fields[f].value.Some? {
      filled := filled[f := Rendered(f, fields[f].value.value)];
      if fields[f].readOnly {
        locked := locked + {f};
      }
    }
  }

  method WorkspaceDefaults(fields: FieldSettings) returns (volume: VolumeOptions, readOnly: set<Field>)
    ensures forall f :: f in readOnly <==> Locked(Entry(fields, f))
    ensures forall f :: At(volume, f) == Shown(f, Default(Entry(fields, f)))
  {
    volume, readOnly := map[], {};
    volume, readOnly := TakeDefault(fields, Type, volume, readOnly);
    volume, readOnly := TakeDefault(fields, Name, volume, readOnly);
    volume, readOnly := TakeDefault(fields, Size, volume, readOnly);
    volume, readOnly := TakeDefault(fields, MountPath, volume, readOnly);
    volume, readOnly := TakeDefault(fields, AccessModes, volume, readOnly);
    forall f
      ensures f in readOnly <==> Locked(Entry(fields, f))
      ensures At(volume, f) == Shown(f, Default(Entry(fields, f)))
    {
      match f { case Type => case Name => case Size => case MountPath => case AccessModes => }
    }
  }

  method TakeForm(form: Form, f: Field, key: Key, readOnly: set<Field>,
                  volume: VolumeOptions) returns (filled: VolumeOptions)
    ensures forall g | g != f :: At(filled, g) == At(volume, g)
    ensures At(filled, f)
            == if f in readOnly || Given(form, key).None? then At(volume, f) else Shown(f, Given(form, key))
  {
    filled := volume;
    if f !in readOnly && key in form && form[key] != "" {
      filled := filled[f := Rendered(f, Strip(form[key]))];
    }
  }

  method TakeFormFields(form: Form, key: Field -> Key, readOnly: set<Field>, volume: VolumeOptions)
      returns (filled: VolumeOptions)
    ensures forall f :: At(filled, f) == if f in readOnly || Given(form, key(f)).None? then At(volume, f)
                                         else Shown(f, Given(form, key(f)))
  {
    filled := TakeForm(form, Type, key(Type), readOnly, volume);
    filled := TakeForm(form, Name, key(Name), readOnly, filled);
    filled := TakeForm(form, Size, key(Size), readOnly, filled);
    filled := TakeForm(form, MountPath, key(MountPath), readOnly, filled);
    filled := TakeForm(form, AccessModes, key(AccessModes), readOnly, filled);
    forall f
      ensures At(filled, f) == if f in readOnly || Given(form, key(f)).None? then At(volume, f)
                               else Shown(f, Given(form, key(f)))
    {
      match f { case Type => case Name => case Size => case MountPath => case AccessModes => }
    }
  }

  method MergeWorkspace(setting: Option<Setting<FieldSettings>>, form: Form) returns (r: Result<VolumeOptions, Error>)
    ensures r == if Contains(setting) then Ok(RenderedFields(f => WorkspaceField(setting.value, form, f)))
                 else Err(UnboundLocalError)
  {
    if !Contains(setting) {
      // The first read-only flag that the form part tests was never assigned.
      return Err(UnboundLocalError);
    }
    var volume, readOnly := WorkspaceDefaults(setting.value.value.value);
    if !setting.value.readOnly {
      volume := TakeFormFields(form, f => Workspace(f), readOnly, volume);
    }
    FieldByField(volume, f => WorkspaceField(setting.value, form, f));
    r := Ok(volume);
  }

  method CountVolumeTypes(form: Form) returns (count: nat)
    ensures count == VolumesClaimed(form)
  {
    count := 0;
    var left := form.Keys;
    while left != {}
      invariant left <= form.Keys
      invariant count == |set k | k in form && k !in left && LooksLikeType(k)|
    {
      var k :| k in left;
      var counted := set k | k in form && k !in left && LooksLikeType(k);
      left := left - {k};
      if LooksLikeType(k) {
        assert (set k | k in form && k !in left && LooksLikeType(k)) == counted + {k};
        count := count + 1;
      } else {
        assert (set k | k in form && k !in left && LooksLikeType(k)) == counted;
      }
    }
    assert (set k | k in form && k !in left && LooksLikeType(k)) == set k | k in form && LooksLikeType(k);
  }

  method CopyDefaultVolume(fields: FieldSettings) returns (volume: Result<VolumeOptions, Error>)
    ensures if Complete(Some(fields)) then volume == Ok(DefaultVolume(fields))
            else volume == Err(KeyError)
  {
    var copied: VolumeOptions := map[];
    var order := [Type, Name, Size, MountPath, AccessModes];
    for i := 0 to |order|
      invariant forall f :: f in copied <==> f in order[..i]
      invariant forall f | f in copied :: f in fields && fields[f].value == Some(copied[f])
    {
      var f := order[i];
      if f !in fields || fields[f].value.None? {
        return Err(KeyError);
      }
      copied := copied[f := fields[f].value.value];
    }
    forall f: Field ensures f in copied {
      assert order[..|order|] == order && order[0] == Type && order[1] == Name && order[2] == Size;
      assert order[3] == MountPath && order[4] == AccessModes;
      match f { case Type => case Name => case Size => case MountPath => case AccessModes => }
    }
    copied := copied[Size := copied[Size] + "Gi"];
    FieldByField(copied, f => Default(Entry(fields, f)));
    volume := Ok(copied);
  }

  method CopyDefaultVolumes(defaults: seq<Option<FieldSettings>>) returns (r: Result<seq<VolumeOptions>, Error>)
    ensures if forall i | 0 <= i < |defaults| :: Complete(defaults[i])
            then r.Ok? && |r.value| == |defaults|
                 && forall i | 0 <= i < |defaults| :: r.value[i] == DefaultVolume(defaults[i].GetOr(map[]))
            else r == Err(KeyError)
  {
    var volumes: seq<VolumeOptions> := [];
    for i := 0 to |defaults|
      invariant |volumes| == i
      invariant forall j | 0 <= j < i :: Complete(defaults[j]) && volumes[j] == DefaultVolume(defaults[j].GetOr(map[]))
    {
      if defaults[i].None? {
        return Err(KeyError);
      }
      var volume := CopyDefaultVolume(defaults[i].value);
      if volume.Err? {
        return Err(KeyError);
      }
      volumes := volumes + [volume.value];
    }
    r := Ok(volumes);
  }

  method ReadFormVolumes(form: Form) returns (volumes: seq<VolumeOptions>)
    ensures |volumes| == VolumesClaimed(form)
    ensures forall i | 0 <= i < |volumes| :: volumes[i] == FormVolume(form, i + 1)
  {
    volumes := [];
    var count := CountVolumeTypes(form);
    for i := 0 to count
      invariant |volumes| == i && forall j | 0 <= j < i :: volumes[j] == FormVolume(form, j + 1)
    {
      var volume := TakeFormFields(form, f => Volume(f, i + 1), {}, map[]);
      FieldByField(volume, f => Given(form, Volume(f, i + 1)));
      assert volume == FormVolume(form, i + 1);
      volumes := volumes + [volume];
    }
  }

  method MergeDataVolumes(d: Defaults, form: Form) returns (r: Result<seq<VolumeOptions>, Error>)
    ensures r == if VolumesFail(d) then Err(KeyError) else Ok(DataVolumes(d, form))
  {
    if Locked(d.dataVolumes) {
      r := CopyDefaultVolumes(d.dataVolumes.value.value.value);
      assert r.Ok? ==> r.value == DefaultVolumes(d);
    } else {
      var volumes := ReadFormVolumes(form);
      assert volumes == DataVolumes(d, form);
      r := Ok(volumes);
    }
  }

  method OptionsFromForm(c: Config, form: Form) returns (r: Result<Options, Error>)
    ensures r == Merged(c, form)
  {
    if c.WithoutDefaults? {
      return Err(KeyError);
    }
    var d := FormDefaults(c);
    var image := MergeImage(d, form);
    if image.Err? {
      return Err(image.error);
    }
    var cpu := MergePlain(d.cpu, form, Cpu);
    var memory := MergePlain(d.memory, form, Memory);
    var workspace := MergeWorkspace(d.workspaceVolume, form);
    if workspace.Err? {
      return Err(workspace.error);
    }
    var volumes := MergeDataVolumes(d, form);
    if volumes.Err? {
      return Err(volumes.error);
    }
    var extraResources := MergePlain(d.extraResources, form, ExtraResources);
    r := Ok(Options(image.value, cpu, memory, workspace.value, volumes.value, extraResources));
  }

  // ---------- the rules written out

  /** A key that the form leaves out or blank: every option is what is configured, read-only or not, and absent when
      nothing is. */
  lemma BlankKeysKeepTheConfiguredValues(c: Config, form: Form, f: Field)
    requires Merged(c, form).Ok?
    ensures c.Config? && c.defaults.workspaceVolume.Some? && c.defaults.workspaceVolume.value.value.Some?
    ensures var d, o := c.defaults, Merged(c, form).value;
            && (Image !in form || form[Image] == "" ==> o.image == if d.image.Some? then d.image.value.value else None)
            && (Cpu !in form || form[Cpu] == "" ==> o.cpu == if d.cpu.Some? then d.cpu.value.value else None)
            && (Memory !in form || form[Memory] == "" ==>
                  o.memory == if d.memory.Some? then d.memory.value.value else None)
            && (ExtraResources !in form || form[ExtraResources] == "" ==>
                  o.extraResources == if d.extraResources.Some? then d.extraResources.value.value else None)
    ensures var fields, volume := c.defaults.workspaceVolume.value.value.value, Merged(c, form).value.workspaceVolume;
            Workspace(f) !in form || form[Workspace(f)] == "" ==>
              && (f in volume <==> f in fields && fields[f].value.Some?)
              && (f in volume ==> volume[f] == fields[f].value.value + if f == Size then "Gi" else "")
  {
  }

  /** A key that the form fills in: the stripped text wins over a writable or missing value and loses to a read-only
      one; a read-only image gives way to a listed one. */
  lemma FilledKeysWinUnlessReadOnly(c: Config, form: Form, f: Field)
    requires Merged(c, form).Ok?
    ensures c.Config? && c.defaults.workspaceVolume.Some? && c.defaults.workspaceVolume.value.value.Some?
    ensures var d, o := c.defaults, Merged(c, form).value;
            && (Cpu in form && form[Cpu] != "" ==>
                  o.cpu == if d.cpu.Some? && d.cpu.value.value.Some? && d.cpu.value.readOnly then d.cpu.value.value
                           else Some(Strip(form[Cpu])))
            && (Memory in form && form[Memory] != "" ==>
                  o.memory == if d.memory.Some? && d.memory.value.value.Some? && d.memory.value.readOnly
                              then d.memory.value.value else Some(Strip(form[Memory])))
            && (ExtraResources in form && form[ExtraResources] != "" ==>
                  o.extraResources == if d.extraResources.Some? && d.extraResources.value.value.Some?
                                         && d.extraResources.value.readOnly
                                      then d.extraResources.value.value else Some(Strip(form[ExtraResources])))
            && (Image in form && form[Image] != "" ==>
                  o.image == if d.image.Some? && d.image.value.value.Some? && d.image.value.readOnly
                                && !(d.images.Some? && Strip(form[Image]) in d.images.value)
                             then d.image.value.value else Some(Strip(form[Image])))
    ensures var setting, volume := c.defaults.workspaceVolume.value, Merged(c, form).value.workspaceVolume;
            var fields := setting.value.value;
            Workspace(f) in form && form[Workspace(f)] != "" ==>
              if setting.readOnly || (f in fields && fields[f].value.Some? && fields[f].readOnly) then
                && (f in volume <==> f in fields && fields[f].value.Some?)
                && (f in volume ==> volume[f] == fields[f].value.value + if f == Size then "Gi" else "")
              else
                f in volume && volume[f] == Strip(form[Workspace(f)]) + if f == Size then "Gi" else ""
  {
  }

  /** The data volumes: a read-only list field by field, or the numbered fields of the form, as many volumes as the
      form has keys that start like a type. */
  lemma DataVolumesWrittenOut(c: Config, form: Form, i: nat, f: Field)
    requires Merged(c, form).Ok?
    ensures c.Config?
    ensures var setting, volumes := c.defaults.dataVolumes, Merged(c, form).value.dataVolumes;
            if setting.Some? && setting.value.value.Some? && setting.value.readOnly then
              var defaults := setting.value.value.value;
              && |volumes| == |defaults|
              && (i < |defaults| ==>
                    && defaults[i].Some? && f in defaults[i].value && defaults[i].value[f].value.Some?
                    && f in volumes[i]
                    && volumes[i][f] == defaults[i].value[f].value.value + if f == Size then "Gi" else "")
            else
              && |volumes| == |set k | k in form && (k.TypeLike? || (k.Volume? && k.field == Type))|
              && (i < |volumes| ==>
                    && (f in volumes[i] <==> Volume(f, i + 1) in form && form[Volume(f, i + 1)] != "")
                    && (f in volumes[i] ==>
                          volumes[i][f] == Strip(form[Volume(f, i + 1)]) + if f == Size then "Gi" else ""))
  {
    assert (set k | k in form && LooksLikeType(k))
        == set k | k in form && (k.TypeLike? || (k.Volume? && k.field == Type));
    var setting := c.defaults.dataVolumes;
    if setting.Some? && setting.value.value.Some? && setting.value.readOnly && i < |setting.value.value.value| {
      assert Complete(setting.value.value.value[i]);
    }
  }

  /** Which error a call ends in, in the order of the code: the image list, the workspace volume, the data volumes. */
  lemma ErrorsWrittenOut(c: Config, form: Form)
    ensures var imageFails := && c.Config? && c.defaults.image.Some? && c.defaults.image.value.value.Some?
                              && c.defaults.image.value.readOnly && c.defaults.images.None?
                              && Image in form && form[Image] != "";
            var workspace := c.Config? && c.defaults.workspaceVolume.Some?
                && c.defaults.workspaceVolume.value.value.Some?;
            && (Merged(c, form) == Err(UnboundLocalError) <==> !c.WithoutDefaults? && !imageFails && !workspace)
            && (Merged(c, form) == Err(KeyError) <==>
                  || c.WithoutDefaults? || imageFails
                  || (&& workspace && c.defaults.dataVolumes.Some? && c.defaults.dataVolumes.value.value.Some?
                      && c.defaults.dataVolumes.value.readOnly
                      && exists i, f :: && 0 <= i < |c.defaults.dataVolumes.value.value.value|
                                        && Lacks(c.defaults.dataVolumes.value.value.value[i], f)))
  {
    if c.Config? && Contains(c.defaults.dataVolumes) {
      var volumes := c.defaults.dataVolumes.value.value.value;
      forall i | 0 <= i < |volumes| ensures !Complete(volumes[i]) <==> exists f :: Lacks(volumes[i], f) {
        IncompleteLacks(volumes[i]);
      }
    }
  }

  lemma IncompleteLacks(volume: Option<FieldSettings>)
    ensures !Complete(volume) <==> exists f :: Lacks(volume, f)
  {
    if volume.None? {
      assert Lacks(volume, Type);
    } else if !Complete(volume) {
      var f: Field :| f !in volume.value || volume.value[f].value.None?;
      assert Lacks(volume, f);
    }
  }

  ghost predicate Lacks(volume: Option<FieldSettings>, f: Field) {
    volume.None? || f !in volume.value || volume.value[f].value.None?
  }

  /** Stripping takes blanks off both ends and nothing else. */
  lemma {:induction false} StripTakesBlanks(s: string) returns (before: string, after: string)
    ensures s == before + Strip(s) + after
    ensures forall c | c in before + after :: c in BLANKS
    ensures Strip(s) != "" ==> Strip(s)[0] !in BLANKS && Strip(s)[|Strip(s)| - 1] !in BLANKS
  {
    before, after := "", "";
    if s != "" {
      if IsSpace(s[0]) {
        before, after := StripTakesBlanks(s[1..]);
        before := [s[0]] + before;
      } else if IsSpace(s[|s| - 1]) {
        before, after := StripTakesBlanks(s[..|s| - 1]);
        after := after + [s[|s| - 1]];
      }
    }
  }

  const BLANKS := {' ', '\t', '\n', '\U{0B}', '\U{0C}', '\r', '\U{1C}', '\U{1D}', '\U{1E}', '\U{1F}'}

  // ---------- what the administrator and the user decide

  /** The keys of the form that the configuration leaves to the user. */
  ghost predicate Open(c: Config, key: Key) {
    var d := FormDefaults(c);
    match key
    case Image => true
    case Cpu => !Locked(d.cpu)
    case Memory => !Locked(d.memory)
    case ExtraResources => !Locked(d.extraResources)
    case Workspace(f) => !Locked(d.workspaceVolume)
                         && (Contains(d.workspaceVolume) ==> !Locked(Entry(d.workspaceVolume.value.value.value, f)))
    case Volume(_, _) => !Locked(d.dataVolumes)
    case TypeLike(_) => !Locked(d.dataVolumes)
    case Other(_) => false
  }

  ghost predicate SameOpenKeys(c: Config, a: Form, b: Form) {
    forall key | Open(c, key) :: (key in a <==> key in b) && (key in a ==> a[key] == b[key])
  }

  /** Two forms that agree on the open keys have the same outcome, whatever they say elsewhere. */
  lemma OnlyOpenKeysMatter(c: Config, a: Form, b: Form)
    requires SameOpenKeys(c, a, b)
    ensures Merged(c, a) == Merged(c, b)
  {
    var d := FormDefaults(c);
    forall key | Open(c, key) ensures Given(a, key) == Given(b, key) {}
    if Contains(d.workspaceVolume) {
      SameFields(f => WorkspaceField(d.workspaceVolume.value, a, f),
                 f => WorkspaceField(d.workspaceVolume.value, b, f));
    }
    SameDataVolumes(c, a, b);
  }

  lemma SameDataVolumes(c: Config, a: Form, b: Form)
    requires SameOpenKeys(c, a, b)
    ensures DataVolumes(FormDefaults(c), a) == DataVolumes(FormDefaults(c), b)
  {
    var d := FormDefaults(c);
    if !Locked(d.dataVolumes) {
      forall key | LooksLikeType(key) ensures key in a <==> key in b {
        assert Open(c, key);
      }
      assert (set k | k in a && LooksLikeType(k)) == set k | k in b && LooksLikeType(k);
      forall i: int ensures FormVolume(a, i) == FormVolume(b, i) {
        forall f ensures Given(a, Volume(f, i)) == Given(b, Volume(f, i)) {
          assert Open(c, Volume(f, i));
        }
        SameFields(f => Given(a, Volume(f, i)), f => Given(b, Volume(f, i)));
      }
    }
    assert DataVolumes(d, a) == DataVolumes(d, b);
  }

  lemma SameFields(x: Field -> Option<string>, y: Field -> Option<string>)
    requires forall f :: x(f) == y(f)
    ensures RenderedFields(x) == RenderedFields(y)
  {
  }

  /** On the other side, what a form gives for an open key of a writable option ends up in the options. */
  lemma OpenKeysReachTheOptions(c: Config, form: Form, f: Field)
    requires Merged(c, form).Ok?
    ensures var o := Merged(c, form).value;
            && (Open(c, Cpu) && Given(form, Cpu).Some? ==> o.cpu == Given(form, Cpu))
            && (Open(c, Memory) && Given(form, Memory).Some? ==> o.memory == Given(form, Memory))
            && (Open(c, ExtraResources) && Given(form, ExtraResources).Some? ==>
                  o.extraResources == Given(form, ExtraResources))
            && (!Locked(FormDefaults(c).image) && Given(form, Image).Some? ==> o.image == Given(form, Image))
            && (Open(c, Workspace(f)) && Given(form, Workspace(f)).Some? ==>
                  At(o.workspaceVolume, f) == Shown(f, Given(form, Workspace(f))))
  {
  }

  /** A configuration with no default for the workspace volume fails on every form, as does one without defaults
      or with an incomplete read-only data volume; every other configuration accepts some form. */
  lemma UselessConfigurations(c: Config)
    ensures (forall form :: Merged(c, form).Err?) <==>
              c.WithoutDefaults? || !Contains(FormDefaults(c).workspaceVolume) || VolumesFail(FormDefaults(c))
  {
    var empty: Form := map[];
    assert Given(empty, Image).None?;
    assert Merged(c, empty).Err? <==>
             c.WithoutDefaults? || !Contains(FormDefaults(c).workspaceVolume) || VolumesFail(FormDefaults(c));
  }

  /** Defaults that leave the workspace volume out, as the configuration file invites: no form at all is accepted. */
  lemma NoWorkspaceDefaultRejectsEveryForm(form: Form)
    ensures var d := Defaults(Some(Setting(Some("image"), false)), None, None, None, None, None, None);
            Merged(Config(d), form) == Err(UnboundLocalError) && Merged(NoConfig, form) == Err(UnboundLocalError)
  {
  }

  /** Any two forms that succeed agree on every option and workspace field that is read-only, on its own or through
      its volume, and on a read-only list of data volumes; the value is the default. */
  lemma ReadOnlyFieldsIgnoreTheForm(c: Config, a: Form, b: Form)
    requires Merged(c, a).Ok? && Merged(c, b).Ok?
    ensures var d, x, y := FormDefaults(c), Merged(c, a).value, Merged(c, b).value;
            && (Locked(d.cpu) ==> x.cpu == y.cpu == Default(d.cpu))
            && (Locked(d.memory) ==> x.memory == y.memory == Default(d.memory))
            && (Locked(d.extraResources) ==> x.extraResources == y.extraResources == Default(d.extraResources))
            && (Locked(d.dataVolumes) ==> x.dataVolumes == y.dataVolumes == DefaultVolumes(d))
            && (Locked(d.workspaceVolume) ==>
                  x.workspaceVolume == y.workspaceVolume == DefaultVolume(d.workspaceVolume.value.value.value))
            && (forall f | Locked(Entry(d.workspaceVolume.value.value.value, f)) ::
                  At(x.workspaceVolume, f) == At(y.workspaceVolume, f)
                  == Shown(f, Default(Entry(d.workspaceVolume.value.value.value, f))))
  {
    var d := FormDefaults(c);
    if Locked(d.workspaceVolume) {
      var fields := d.workspaceVolume.value.value.value;
      SameFields(f => WorkspaceField(d.workspaceVolume.value, a, f), f => Default(Entry(fields, f)));
      SameFields(f => WorkspaceField(d.workspaceVolume.value, b, f), f => Default(Entry(fields, f)));
    }
  }

  /** The i-th default data volume has a value for f that is read-only on its own. */
  ghost predicate OwnLocked(d: Defaults, i: nat, f: Field) {
    && Contains(d.dataVolumes) && i < |d.dataVolumes.value.value.value|
    && d.dataVolumes.value.value.value[i].Some?
    && Locked(Entry(d.dataVolumes.value.value.value[i].value, f))
  }

  /** Every accepted form leaves the default in this field of the i-th data volume, if there is an i-th. */
  ghost predicate Enforced(c: Config, i: nat, f: Field)
    requires OwnLocked(FormDefaults(c), i, f)
  {
    var default := Default(Entry(FormDefaults(c).dataVolumes.value.value.value[i].value, f));
    forall form | Merged(c, form).Ok? && i < |Merged(c, form).value.dataVolumes| ::
      At(Merged(c, form).value.dataVolumes[i], f) == Shown(f, default)
  }

  /** Any two accepted forms agree on this field of the i-th data volume, where both have an i-th. */
  ghost predicate Agreed(c: Config, i: nat, f: Field) {
    forall a, b | && Merged(c, a).Ok? && i < |Merged(c, a).value.dataVolumes|
                  && Merged(c, b).Ok? && i < |Merged(c, b).value.dataVolumes| ::
      At(Merged(c, a).value.dataVolumes[i], f) == At(Merged(c, b).value.dataVolumes[i], f)
  }

  /** The flag of a data-volume field does nothing by itself: the field is enforced, and even only agreed on, exactly
      when the whole list is read-only. */
  lemma DataVolumeFlagsAreIgnored(c: Config, i: nat, f: Field)
    requires !c.WithoutDefaults? && Contains(FormDefaults(c).workspaceVolume) && !VolumesFail(FormDefaults(c))
    requires OwnLocked(FormDefaults(c), i, f)
    ensures Enforced(c, i, f) <==> Locked(FormDefaults(c).dataVolumes)
    ensures Agreed(c, i, f) <==> Locked(FormDefaults(c).dataVolumes)
  {
    var d := FormDefaults(c);
    if !Locked(d.dataVolumes) {
      var blank := BlankTypes(i + 1);
      var filled := blank[Volume(f, i + 1) := "x"];
      ClaimsBlankTypes(i + 1, f, "x");
      assert DataVolumes(d, blank)[i] == FormVolume(blank, i + 1);
      assert DataVolumes(d, filled)[i] == FormVolume(filled, i + 1);
      assert Given(blank, Volume(f, i + 1)) == None && Given(filled, Volume(f, i + 1)).Some?;
      assert Merged(c, blank).Ok? && At(Merged(c, blank).value.dataVolumes[i], f) == None;
      assert Merged(c, filled).Ok? && At(Merged(c, filled).value.dataVolumes[i], f).Some?;
    }
  }

  /** A form with the types of n data volumes, all blank. */
  ghost function BlankTypes(n: nat): Form {
    map i | 1 <= i <= n :: Volume(Type, i) := ""
  }

  lemma ClaimsBlankTypes(n: nat, f: Field, text: string)
    requires n > 0
    ensures VolumesClaimed(BlankTypes(n)) == n
    ensures VolumesClaimed(BlankTypes(n)[Volume(f, n) := text]) == n
  {
    TypesUpTo(n);
    assert (set k | k in BlankTypes(n) && LooksLikeType(k)) == set i | 1 <= i <= n :: Volume(Type, i);
    assert (set k | k in BlankTypes(n)[Volume(f, n) := text] && LooksLikeType(k))
        == set i | 1 <= i <= n :: Volume(Type, i);
  }

  lemma {:induction false} TypesUpTo(n: nat)
    ensures |set i | 1 <= i <= n :: Volume(Type, i)| == n
  {
    var upTo := set i | 1 <= i <= n :: Volume(Type, i);
    if n == 0 {
      assert upTo == {};
    } else {
      TypesUpTo(n - 1);
      assert upTo == (set i | 1 <= i <= n - 1 :: Volume(Type, i)) + {Volume(Type, n)};
    }
  }

  /** A writable list whose only volume has a read-only name: two forms are accepted with two names. */
  lemma ReadOnlyNameIsOverridden(name: string, other: string)
    requires Strip(name) == name != "" && Strip(other) == other != "" && name != other
    ensures var volume := map[Name := Setting(Some(name), true)];
            var d := NOTHING.(workspaceVolume := Some(Setting(Some(map[]), false)),
                              dataVolumes := Some(Setting(Some([Some(volume)]), false)));
            var a, b := map[Volume(Type, 1) := "New", Volume(Name, 1) := name],
                        map[Volume(Type, 1) := "New", Volume(Name, 1) := other];
            && OwnLocked(d, 0, Name)
            && Merged(Config(d), a).Ok? && Merged(Config(d), b).Ok?
            && var x, y := Merged(Config(d), a).value.dataVolumes, Merged(Config(d), b).value.dataVolumes;
               && |x| == |y| == 1
               && At(x[0], Name) == Some(name) && At(y[0], Name) == Some(other)
  {
    OneTypeKey(map[Volume(Type, 1) := "New", Volume(Name, 1) := name]);
    OneTypeKey(map[Volume(Type, 1) := "New", Volume(Name, 1) := other]);
  }

  lemma OneTypeKey(form: Form)
    requires form.Keys == {Volume(Type, 1), Volume(Name, 1)}
    ensures VolumesClaimed(form) == 1
  {
    assert (set k | k in form && LooksLikeType(k)) == {Volume(Type, 1)};
  }

  /** A read-only image is the default or one of the listed images. */
  lemma ReadOnlyImageIsStandard(c: Config, form: Form)
    requires Locked(FormDefaults(c).image) && Merged(c, form).Ok?
    ensures var d, image := FormDefaults(c), Merged(c, form).value.image;
            image == Default(d.image) || (image.Some? && d.images.Some? && image.value in d.images.value)
  {
  }
}
