/** The Socket.IO events the browser clients emit to the server, with their payloads. */
module Wire {

  datatype Message =
      /** 'audio_data': a base64 WAV chunk, its container format and the sample rate. */
    | AudioData(audio: string, format: string, sampleRate: int)
      /** 'audio_blob': base64 audio bytes, their MIME type and the nominal duration in seconds. */
    | AudioBlob(audio: string, mimeType: string, duration: int)
      /** 'save_transcript': the joined transcript text. */
    | SaveTranscript(transcript: string)
}
