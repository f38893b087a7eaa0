/** The client's state file. JSON is the identity here; fields this version does not
    know are opaque text that must survive. RFC 3339 is a codec that parses back
    whatever it could format. */
module Persistence {
  import opened Items
  import opened Domain

  datatype Codec = Codec(format: Instant -> Option<string>, parse: string -> Option<Instant>)

  ghost predicate Lawful(codec: Codec) {
    forall t :: codec.format(t).Some? ==> codec.parse(codec.format(t).value) == Some(t)
  }

  datatype SnoozeEntry = SnoozeEntry(snoozedUntil: string, extra: string)

  datatype StateFile = StateFile(snoozed: map<string, SnoozeEntry>, preferences: string, extra: string)

  const DEFAULT := StateFile(map[], "", "")

  datatype Disk = Absent | Malformed | Holds(file: StateFile)

  /** An absent file is a first run; a malformed one is an error. */
  function Loaded(disk: Disk): Option<StateFile> {
    match disk
    case Absent => Some(DEFAULT)
    case Malformed => None
    case Holds(file) => Some(file)
  }

  predicate Decodable(codec: Codec, file: StateFile) {
    forall k :: k in file.snoozed ==> codec.parse(file.snoozed[k].snoozedUntil).Some?
  }

  /** `decoded_snoozes`: one bad deadline fails the whole file. */
  function Decoded(codec: Codec, file: StateFile): Option<map<string, Instant>> {
    if Decodable(codec, file) then
      Some(map k | k in file.snoozed :: codec.parse(file.snoozed[k].snoozedUntil).value)
    else None
  }

  /** The file holds exactly `snoozes`; entries that survive keep what this version does
      not know, and the rest of the file is as before. */
  ghost predicate Reconciled(codec: Codec, file: StateFile, snoozes: map<string, Instant>, r: StateFile) {
    && r.preferences == file.preferences && r.extra == file.extra
    && r.snoozed.Keys == snoozes.Keys
    && forall k :: k in snoozes ==>
         && codec.format(snoozes[k]) == Some(r.snoozed[k].snoozedUntil)
         && r.snoozed[k].extra == if k in file.snoozed then file.snoozed[k].extra else ""
  }

  /** Every deadline has a text. */
  predicate Formattable(codec: Codec, snoozes: map<string, Instant>) {
    forall k :: k in snoozes ==> codec.format(snoozes[k]).Some?
  }

  /** `replace_snoozes`: the loop over the new map, in its iteration order. */
  method ReplaceSnoozes(codec: Codec, file: StateFile, snoozes: map<string, Instant>) returns (r: Option<StateFile>)
    ensures r.Some? <==> Formattable(codec, snoozes)
    ensures r.Some? ==> Reconciled(codec, file, snoozes, r.value)
  {
    var entries := map k | k in file.snoozed && k in snoozes :: file.snoozed[k];
    var todo := snoozes.Keys;
    while todo != {}
      invariant todo <= snoozes.Keys
      invariant forall k :: k in entries <==> k in snoozes && (k !in todo || k in file.snoozed)
      invariant forall k :: k in entries && k in todo ==> entries[k] == file.snoozed[k]
      invariant forall k :: k in snoozes && k !in todo ==>
                  && codec.format(snoozes[k]) == Some(entries[k].snoozedUntil)
                  && entries[k].extra == if k in file.snoozed then file.snoozed[k].extra else ""
    {
      var k :| k in todo;
      var formatted := codec.format(snoozes[k]);
      if formatted.None? {
        return None;
      }
      entries := entries[k := if k in entries then entries[k].(snoozedUntil := formatted.value)
                              else SnoozeEntry(formatted.value, "")];
      todo := todo - {k};
    }
    r := Some(StateFile(entries, file.preferences, file.extra));
  }

  /** What was written reads back: decoding after reconciling gives the same map. */
  lemma ReplacedDecodes(codec: Codec, file: StateFile, snoozes: map<string, Instant>, r: StateFile)
    requires Lawful(codec) && Reconciled(codec, file, snoozes, r)
    ensures Decoded(codec, r) == Some(snoozes)
  {
    forall k | k in r.snoozed
      ensures codec.parse(r.snoozed[k].snoozedUntil) == Some(snoozes[k])
    {
      var t := snoozes[k];
      assert codec.format(t) == Some(r.snoozed[k].snoozedUntil);
      assert codec.parse(codec.format(t).value) == Some(t);
    }
    var decoded := map k | k in r.snoozed :: codec.parse(r.snoozed[k].snoozedUntil).value;
    assert decoded == snoozes;
  }

  /** How the two file operations of an update turn out. A failed save leaves the file
      as it was, because the new contents are renamed into place last. */
  datatype Weather = Weather(canRead: bool, canWrite: bool)

  class Store {
    const codec: Codec
    var disk: Disk

    constructor (codec: Codec, disk: Disk)
      ensures this.codec == codec && this.disk == disk
    {
      this.codec, this.disk := codec, disk;
    }

    /** What the file means to the client. */
    function Snoozes(): Option<map<string, Instant>>
      reads this
    {
      if Loaded(disk).None? then None else Decoded(codec, Loaded(disk).value)
    }

    /** What the other writers see. */
    function Preferences(): Option<string>
      reads this
    {
      if Loaded(disk).None? then None else Some(Loaded(disk).value.preferences)
    }

    /** The transaction of the snooze writer: it reloads, so it cannot undo what other
        writers saved. On success the file decodes to exactly `snoozes`; on failure it
        is untouched. */
    method UpdateSnoozes(snoozes: map<string, Instant>, weather: Weather) returns (ok: bool)
      requires Lawful(codec)
      modifies this
      ensures ok <==> weather.canRead && weather.canWrite && old(Loaded(disk)).Some? && Formattable(codec, snoozes)
      ensures ok ==> Snoozes() == Some(snoozes)
      ensures Preferences() == old(Preferences())
      ensures ok ==> Loaded(disk).Some? && Loaded(disk).value.extra == old(Loaded(disk)).value.extra
      ensures !ok ==> disk == old(disk)
    {
      if !weather.canRead || disk.Malformed? {
        return false;
      }
      var file := Loaded(disk).value;
      var changed := ReplaceSnoozes(codec, file, snoozes);
      if changed.None? || !weather.canWrite {
        return false;
      }
      ReplacedDecodes(codec, file, snoozes, changed.value);
      disk := Holds(changed.value);
      ok := true;
    }

    /** The transaction of the window's writers: preferences only. */
    method UpdatePreferences(preferences: string, weather: Weather) returns (ok: bool)
      modifies this
      ensures ok <==> weather.canRead && weather.canWrite && old(Loaded(disk)).Some?
      ensures ok ==> disk == Holds(old(Loaded(disk)).value.(preferences := preferences))
      ensures !ok ==> disk == old(disk)
      ensures Snoozes() == old(Snoozes())
    {
      if !weather.canRead || disk.Malformed? || !weather.canWrite {
        return false;
      }
      var file := Loaded(disk).value;
      disk := Holds(file.(preferences := preferences));
      assert Decodable(codec, disk.file) <==> Decodable(codec, file);
      ok := true;
    }
  }
}
