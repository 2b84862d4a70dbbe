/**
 * The enumerations the core refers to. The enumeration module of the
 * repository is not part of this model, so each type carries only the
 * members the behaviour depends on.
 */
module Enums {

  /** The media kinds an item or a loaded media can have; only TRACK and UNKNOWN are used by the behaviour modelled. */
  datatype MediaType =
    | Artist | Album | Track | Playlist | Radio
    | Audiobook | Chapter | Podcast | Episode
    | Folder | Unknown

  /** Playback state of a player; only PLAYING changes derived values. */
  datatype PlayerState = Idle | Paused | Playing

  /** Kind of player (its members are not modelled). */
  datatype PlayerType = PlayerType(name: string)

  /** A capability flag of a player (its members are not modelled). */
  datatype PlayerFeature = PlayerFeature(name: string)
}
