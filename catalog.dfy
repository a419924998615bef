/**
 * The physicist record and the fixed catalog the application ships with
 * (src/types/index.ts and src/hooks/usePhysicists.ts). The catalog is data
 * read by the note editor, the physicist selector and the replicas page.
 */
module PhysicistCatalog {

  /** A catalog entry; the optional creator, NFT and engagement fields are never set in the catalog. */
  datatype Physicist = Physicist(
    id: string,
    name: string,
    era: string,
    specialty: string,
    bio: string,
    knownFor: string,
    avatar: string,
    wallpaper: string)

  const GodOfPhysicsId := "godofphysics"

  /** The six physicists of the catalog, the guide first. */
  const Physicists: seq<Physicist> := [
    Physicist(
      "godofphysics",
      "Photon Guide",
      "Timeless",
      "All Physics Disciplines",
      "Your personal guide to the fascinating world of physics. I can connect you with the right physicist for your questions and suggest topics to explore.",
      "Guiding Curious Minds",
      "https://images.unsplash.com/photo-1614332287897-cdc485fa562d?q=80&w=250&auto=format&fit=crop",
      "https://images.unsplash.com/photo-1470813740244-df37b8c1edcb?q=80&w=1080&auto=format&fit=crop"),
    Physicist(
      "einstein",
      "Albert Einstein",
      "1879-1955",
      "Theoretical Physics, Relativity",
      "German-born theoretical physicist, widely acknowledged as one of the greatest physicists of all time. Best known for developing the theory of relativity and contributions to quantum mechanics.",
      "E=mc²",
      "https://images.unsplash.com/photo-1621871908119-295c8ce5cee4?q=80&w=250&auto=format&fit=crop",
      "https://images.unsplash.com/photo-1518770660439-4636190af475?q=80&w=1080&auto=format&fit=crop"),
    Physicist(
      "newton",
      "Isaac Newton",
      "1643-1727",
      "Classical Physics, Calculus",
      "English mathematician, physicist, astronomer, and author who is widely recognized as one of the greatest mathematicians and physicists of all time and as a key figure in the scientific revolution.",
      "Laws of Motion",
      "https://images.unsplash.com/photo-1564473185935-42296d604ad1?q=80&w=250&auto=format&fit=crop",
      "https://images.unsplash.com/photo-1470071459604-3b5ec3a7fe05?q=80&w=1080&auto=format&fit=crop"),
    Physicist(
      "curie",
      "Marie Curie",
      "1867-1934",
      "Radioactivity, Chemistry",
      "Polish and naturalized-French physicist and chemist who conducted pioneering research on radioactivity. She was the first woman to win a Nobel Prize and the only person to win Nobel Prizes in two different scientific fields.",
      "Radioactivity Research",
      "https://images.unsplash.com/photo-1571444403001-1dfce6d1291f?q=80&w=250&auto=format&fit=crop",
      "https://images.unsplash.com/photo-1507413245164-6160d8298b31?q=80&w=1080&auto=format&fit=crop"),
    Physicist(
      "feynman",
      "Richard Feynman",
      "1918-1988",
      "Quantum Electrodynamics",
      "American theoretical physicist known for his work in quantum mechanics, quantum electrodynamics, and particle physics. Known for his engaging teaching style and making complex concepts understandable.",
      "Feynman Diagrams",
      "https://images.unsplash.com/photo-1560250097-0b93528c311a?q=80&w=250&auto=format&fit=crop",
      "https://images.unsplash.com/photo-1487058792275-0ad4aaf24ca7?q=80&w=1080&auto=format&fit=crop"),
    Physicist(
      "hawking",
      "Stephen Hawking",
      "1942-2018",
      "Black Holes, Cosmology",
      "English theoretical physicist, cosmologist, and author who was director of research at the Centre for Theoretical Cosmology at the University of Cambridge. Hawking was known for his work on black holes and relativity.",
      "Hawking Radiation",
      "https://images.unsplash.com/photo-1607990281513-2c110a25bd8c?q=80&w=250&auto=format&fit=crop",
      "https://images.unsplash.com/photo-1462331940025-496dfbfc7564?q=80&w=1080&auto=format&fit=crop")
  ]
}
