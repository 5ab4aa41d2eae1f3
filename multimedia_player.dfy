/**
 * The decorator demo's "multiple inheritance" player: a `MultimediaPlayer`
 * owns an audio player and a video player and re-implements the `Name`
 * both interfaces declare, so that setting it keeps all three names equal.
 * The play methods' console lines are returned instead of printed.
 */
module MultimediaPlayer {
  class AudioPlayer {
    var name: string

    constructor()
      ensures name == ""
    {
      name := "";
    }

    method PlayAudio() returns (line: string)
      ensures line == "Playing audio track..."
    {
      line := "Playing audio track...";
    }
  }

  class VideoPlayer {
    var name: string

    constructor()
      ensures name == ""
    {
      name := "";
    }

    method PlayVideo() returns (line: string)
      ensures line == "Playing video content..."
    {
      line := "Playing video content...";
    }
  }

  class MultimediaPlayer {
    const audioPlayer: AudioPlayer
    const videoPlayer: VideoPlayer
    var name: string

    /** The two inner players carry the multimedia player's name. */
    ghost predicate Synchronised()
      reads this, audioPlayer, videoPlayer
    {
      audioPlayer.name == name && videoPlayer.name == name
    }

    constructor()
      ensures name == "" && Synchronised()
      ensures fresh(audioPlayer) && fresh(videoPlayer)
    {
      audioPlayer := new AudioPlayer();
      videoPlayer := new VideoPlayer();
      name := "";
    }

    /** The `Name` getter. */
    function Name(): string
      reads this
    {
      name
    }

    /** The `Name` setter: writes the audio player's, the video player's and its own name. */
    method SetName(value: string)
      modifies this`name, audioPlayer`name, videoPlayer`name
      ensures Synchronised() && Name() == value
    {
      audioPlayer.name := value;
      videoPlayer.name := value;
      name := value;
    }

    /** Delegates to the audio player; no name changes. */
    method PlayAudio() returns (line: string)
      requires Synchronised()
      ensures Synchronised() && line == "Playing audio track..."
    {
      line := audioPlayer.PlayAudio();
    }

    /** Delegates to the video player; no name changes. */
    method PlayVideo() returns (line: string)
      requires Synchronised()
      ensures Synchronised() && line == "Playing video content..."
    {
      line := videoPlayer.PlayVideo();
    }
  }

  /**
   * The test's run: play both, set the name, and read back the player's and
   * both inner players' names, which all equal the name set.
   */
  method NameScenario(value: string) returns (name: string, audioName: string, videoName: string)
    ensures name == value && audioName == value && videoName == value
  {
    var player := new MultimediaPlayer();
    var _ := player.PlayAudio();
    var _ := player.PlayVideo();
    player.SetName(value);
    name := player.Name();
    audioName := player.audioPlayer.name;
    videoName := player.videoPlayer.name;
  }
}
