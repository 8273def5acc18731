/**
 * The wizard store (`src/stores/wizard.ts`): one draft record that the steps
 * of the event wizard fill in by shallow merges and that `resetForm` puts back
 * to its literal default.
 */
module Wizard {
  import opened Js

  /** A JavaScript `Date`, as milliseconds since the epoch. */
  datatype Date = Date(epochMillis: int)

  datatype LatLng = LatLng(lat: real, lng: real)

  datatype Image = Image(url: string, height: int, width: int)

  datatype Artist = Artist(
    id: string,
    name: string,
    images: seq<Image>,
    genres: seq<string>,
    followers: int,
    popularity: int,
    spotifyUrl: string)

  /** `WizardData`: every field is always present; `None` stands for `null`. */
  datatype WizardData = WizardData(
    date: Option<Date>,
    time: Option<Date>,
    location: Option<LatLng>,
    artists: seq<Artist>)

  /**
   * `Partial<WizardData>`: for each key, `None` when the key is absent and
   * `Some(v)` when it is present with the value `v` (itself `None` for `null`).
   */
  datatype PartialWizardData = PartialWizardData(
    date: Option<Option<Date>>,
    time: Option<Option<Date>>,
    location: Option<Option<LatLng>>,
    artists: Option<seq<Artist>>)

  /** The default draft: no date, no time, no location, no artists. */
  function DefaultDraft(): WizardData
  {
    WizardData(None, None, None, [])
  }

  /** A partial object with no keys at all. */
  function NoKeys(): PartialWizardData
  {
    PartialWizardData(None, None, None, None)
  }

  /**
   * `{ ...base, ...data }`: each key present in `data` takes `data`'s value
   * whole (a `location` or an `artists` list is replaced, never merged), and
   * each absent key keeps `base`'s value.
   */
  function Spread(base: WizardData, data: PartialWizardData): (r: WizardData)
    ensures data.date.Some? ==> r.date == data.date.value
    ensures data.date.None? ==> r.date == base.date
    ensures data.time.Some? ==> r.time == data.time.value
    ensures data.time.None? ==> r.time == base.time
    ensures data.location.Some? ==> r.location == data.location.value
    ensures data.location.None? ==> r.location == base.location
    ensures data.artists.Some? ==> r.artists == data.artists.value
    ensures data.artists.None? ==> r.artists == base.artists
    ensures data == NoKeys() ==> r == base
  {
    WizardData(
      if data.date.Some? then data.date.value else base.date,
      if data.time.Some? then data.time.value else base.time,
      if data.location.Some? then data.location.value else base.location,
      if data.artists.Some? then data.artists.value else base.artists)
  }

  /** The draft after the updates `updates`, applied in order, starting from `start`. */
  function ApplyUpdates(start: WizardData, updates: seq<PartialWizardData>): WizardData
    decreases |updates|
  {
    if updates == [] then start
    else Spread(ApplyUpdates(start, updates[..|updates| - 1]), updates[|updates| - 1])
  }

  /** One more update on the end of a trace is one more `Spread`, as one more `updateFormData` call. */
  lemma ApplyUpdatesSnoc(start: WizardData, updates: seq<PartialWizardData>, data: PartialWizardData)
    ensures ApplyUpdates(start, updates + [data]) == Spread(ApplyUpdates(start, updates), data)
  {
    assert (updates + [data])[..|updates|] == updates;
  }

  /**
   * The value of one key after `updates`: the value from the last update in
   * which the key is present, or `initial` when no update has it.
   */
  function LastWrite<T>(updates: seq<PartialWizardData>, key: PartialWizardData -> Option<T>, initial: T): T
    decreases |updates|
  {
    if updates == [] then initial
    else if key(updates[|updates| - 1]).Some? then key(updates[|updates| - 1]).value
    else LastWrite(updates[..|updates| - 1], key, initial)
  }

  /** Merging the same partial object twice is the same as merging it once. */
  lemma SpreadIdempotent(base: WizardData, data: PartialWizardData)
    ensures Spread(Spread(base, data), data) == Spread(base, data)
  {
  }

  /** Merging `artists` replaces the list; the old artists are not kept. */
  lemma ArtistsReplacedNotAppended(base: WizardData, artists: seq<Artist>)
    requires base.artists != []
    ensures Spread(base, NoKeys().(artists := Some(artists))).artists == artists
    ensures Spread(base, NoKeys().(artists := Some(artists))).artists != base.artists + artists
  {
  }

  /**
   * Last write wins: across any sequence of updates, each field holds the value
   * of the last update that set it, or its starting value if none did.
   */
  lemma {:induction false} LastWriteWins(start: WizardData, updates: seq<PartialWizardData>)
    ensures ApplyUpdates(start, updates).date == LastWrite(updates, (p: PartialWizardData) => p.date, start.date)
    ensures ApplyUpdates(start, updates).time == LastWrite(updates, (p: PartialWizardData) => p.time, start.time)
    ensures ApplyUpdates(start, updates).location ==
            LastWrite(updates, (p: PartialWizardData) => p.location, start.location)
    ensures ApplyUpdates(start, updates).artists ==
            LastWrite(updates, (p: PartialWizardData) => p.artists, start.artists)
    decreases |updates|
  {
    if updates != [] {
      LastWriteWins(start, updates[..|updates| - 1]);
    }
  }

  /** Updates that never name any key leave the draft as it started. */
  lemma {:induction false} EmptyUpdatesChangeNothing(start: WizardData, updates: seq<PartialWizardData>)
    requires forall i :: 0 <= i < |updates| ==> updates[i] == NoKeys()
    ensures ApplyUpdates(start, updates) == start
    decreases |updates|
  {
    if updates != [] {
      EmptyUpdatesChangeNothing(start, updates[..|updates| - 1]);
    }
  }

  /** The store instance. */
  class WizardStore {
    var formData: WizardData

    /** The store as created holds the default draft. */
    constructor ()
      ensures formData == DefaultDraft()
    {
      formData := WizardData(None, None, None, []);
    }

    /** `resetForm`: the default draft again, whatever the updates before. */
    method ResetForm()
      modifies this
      ensures formData == DefaultDraft()
    {
      formData := WizardData(None, None, None, []);
    }

    /** `updateFormData`: shallow merge of `data` over the current draft. */
    method UpdateFormData(data: PartialWizardData)
      modifies this
      ensures formData == Spread(old(formData), data)
    {
      formData := Spread(formData, data);
    }
  }
}
