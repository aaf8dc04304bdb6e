/** The records the back end sends, after the interfaces of `src/types/api.ts`.
    An optional member (`?:`) is an `Option`; a union of string literals is a
    datatype with one constructor per literal and a function giving its code.
    `Field` functions give a record's members as JavaScript values, the way the
    list components read `row[sortField]`. */
module Types {
  import opened Wrappers
  import Js

  /** `Version.type`. */
  datatype VersionType = Standard | Ensamble | Dueto | GrupoReducido {
    function Code(): string {
      match this
      case Standard => "STANDARD"
      case Ensamble => "ENSAMBLE"
      case Dueto => "DUETO"
      case GrupoReducido => "GRUPO_REDUCIDO"
    }
  }

  const AllVersionTypes: seq<VersionType> := [Standard, Ensamble, Dueto, GrupoReducido]

  /** `Event.status`. */
  datatype EventStatus = Scheduled | Completed | Cancelled {
    function Code(): string {
      match this
      case Scheduled => "scheduled"
      case Completed => "completed"
      case Cancelled => "cancelled"
    }
  }

  datatype User = User(id: int, username: string, email: string, first_name: string, last_name: string)

  datatype LoginCredentials = LoginCredentials(username: string, password: string)

  /** What `login` resolves to; `access` and `refresh` are whatever the server sent, possibly absent. */
  datatype AuthResponse = AuthResponse(access: Option<string>, refresh: Option<string>, user: User)

  datatype Theme = Theme(
    id: int, title: string, artist: string, image: Option<string>, tonalidad: string,
    description: string, audio: Option<string>, created_at: string, updated_at: string)

  datatype Version = Version(
    id: int, theme: int, theme_title: Option<string>, title: Option<string>, vtype: VersionType,
    image: Option<string>, audio_file: Option<string>, mus_file: Option<string>,
    notes: Option<string>, sheet_music_count: Option<int>, created_at: string, updated_at: string)

  datatype Location = Location(
    id: int, name: string, address: string, city: string, country: string, capacity: int,
    contact_email: Option<string>, contact_phone: Option<string>, website: Option<string>,
    notes: Option<string>, is_active: bool, created_at: string, updated_at: string)

  /** `Event.location_details`. */
  datatype LocationDetails = LocationDetails(name: string, address: string, city: string)

  datatype Repertoire = Repertoire(
    id: int, name: string, description: Option<string>, is_active: bool,
    created_at: string, updated_at: string)

  /** `Event.location`: an id or the embedded record. */
  datatype EventLocation = LocationId(id: int) | LocationRecord(record: Location)

  /** `Event.repertoire`: an id or the embedded record. */
  datatype EventRepertoire = RepertoireId(id: int) | RepertoireRecord(record: Repertoire)

  datatype Event = Event(
    id: int, title: string, description: Option<string>, location: EventLocation,
    location_details: Option<LocationDetails>, repertoire: Option<EventRepertoire>,
    start_time: string, end_time: Option<string>, status: EventStatus, is_public: bool,
    max_attendees: Option<int>, notes: Option<string>, created_at: string, updated_at: string)

  function OptStr(o: Option<string>): Js.Value {
    match o
    case Some(s) => Js.Str(s)
    case None => Js.Undefined
  }

  function OptNum(o: Option<int>): Js.Value {
    match o
    case Some(n) => Js.Num(n)
    case None => Js.Undefined
  }

  function LocationObject(l: Location): Js.Value {
    Js.Obj(map[
      "id" := Js.Num(l.id), "name" := Js.Str(l.name), "address" := Js.Str(l.address),
      "city" := Js.Str(l.city), "country" := Js.Str(l.country), "capacity" := Js.Num(l.capacity),
      "contact_email" := OptStr(l.contact_email), "contact_phone" := OptStr(l.contact_phone),
      "website" := OptStr(l.website), "notes" := OptStr(l.notes), "is_active" := Js.Bool(l.is_active),
      "created_at" := Js.Str(l.created_at), "updated_at" := Js.Str(l.updated_at)])
  }

  function RepertoireObject(r: Repertoire): Js.Value {
    Js.Obj(map[
      "id" := Js.Num(r.id), "name" := Js.Str(r.name), "description" := OptStr(r.description),
      "is_active" := Js.Bool(r.is_active), "created_at" := Js.Str(r.created_at),
      "updated_at" := Js.Str(r.updated_at)])
  }

  function DetailsObject(d: LocationDetails): Js.Value {
    Js.Obj(map["name" := Js.Str(d.name), "address" := Js.Str(d.address), "city" := Js.Str(d.city)])
  }

  function OptDetails(o: Option<LocationDetails>): Js.Value {
    match o
    case Some(d) => DetailsObject(d)
    case None => Js.Undefined
  }

  /** `theme[key]`; a key the record does not have reads as `undefined`. */
  function ThemeField(t: Theme, key: string): Js.Value {
    match key
    case "id" => Js.Num(t.id)
    case "title" => Js.Str(t.title)
    case "artist" => Js.Str(t.artist)
    case "image" => OptStr(t.image)
    case "tonalidad" => Js.Str(t.tonalidad)
    case "description" => Js.Str(t.description)
    case "audio" => OptStr(t.audio)
    case "created_at" => Js.Str(t.created_at)
    case "updated_at" => Js.Str(t.updated_at)
    case _ => Js.Undefined
  }

  /** `version[key]`. */
  function VersionField(v: Version, key: string): Js.Value {
    match key
    case "id" => Js.Num(v.id)
    case "theme" => Js.Num(v.theme)
    case "theme_title" => OptStr(v.theme_title)
    case "title" => OptStr(v.title)
    case "type" => Js.Str(v.vtype.Code())
    case "image" => OptStr(v.image)
    case "audio_file" => OptStr(v.audio_file)
    case "mus_file" => OptStr(v.mus_file)
    case "notes" => OptStr(v.notes)
    case "sheet_music_count" => OptNum(v.sheet_music_count)
    case "created_at" => Js.Str(v.created_at)
    case "updated_at" => Js.Str(v.updated_at)
    case _ => Js.Undefined
  }

  /** `event[key]`. */
  function EventField(e: Event, key: string): Js.Value {
    match key
    case "id" => Js.Num(e.id)
    case "title" => Js.Str(e.title)
    case "description" => OptStr(e.description)
    case "location" =>
      (match e.location
       case LocationId(i) => Js.Num(i)
       case LocationRecord(l) => LocationObject(l))
    case "location_details" => OptDetails(e.location_details)
    case "repertoire" =>
      (match e.repertoire
       case Some(RepertoireId(i)) => Js.Num(i)
       case Some(RepertoireRecord(r)) => RepertoireObject(r)
       case None => Js.Undefined)
    case "start_time" => Js.Str(e.start_time)
    case "end_time" => OptStr(e.end_time)
    case "status" => Js.Str(e.status.Code())
    case "is_public" => Js.Bool(e.is_public)
    case "max_attendees" => OptNum(e.max_attendees)
    case "notes" => OptStr(e.notes)
    case "created_at" => Js.Str(e.created_at)
    case "updated_at" => Js.Str(e.updated_at)
    case _ => Js.Undefined
  }
}
